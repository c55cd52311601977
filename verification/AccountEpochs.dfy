/** Epochs, email ownership, the flow automaton and idempotent link confirmation, over every run. */
module AccountEpochs {
  import opened Wrappers
  import opened SessionClock
  import opened AccountTables
  import opened AccountProtocol
  import opened AccountEvolution
  import opened AccountInvariant
  import opened AccountInduction
  import opened AccountTheorems
  import opened AccountFrames

  // ---- one step: what finishes a flow or a challenge, and who changes an address

  predicate FinishesFlows(e: Event) {
    e.EmailCommit? || e.FirstPasswordCommit? || e.ConfirmLink? || e.Unlink? || e.FinishLogin? || e.FinishSignUp?
  }

  /** Outside the finishing events no flow becomes consumed. */
  lemma OtherEventsFinishNothing(c: Config, s: Sys, e: Event, s': Sys, f: Id)
    requires Step(c, s, e, s') && !FinishesFlows(e)
    requires f in s.db.flows && f != s.db.next && !s.db.flows[f].status.Consumed?
    ensures f in s'.db.flows && !s'.db.flows[f].status.Consumed?
  {
    hide Step;
    StepFramed(c, s, e, s');
    if WritesFlows(e) {
      FlowStepFinishesNothing(c, s, e, s', f);
    }
  }

  lemma FlowStepFinishesNothing(c: Config, s: Sys, e: Event, s': Sys, f: Id)
    requires Step(c, s, e, s') && WritesFlows(e) && !FinishesFlows(e)
    requires f in s.db.flows && f != s.db.next && !s.db.flows[f].status.Consumed?
    ensures f in s'.db.flows && !s'.db.flows[f].status.Consumed?
  {
    hide Step;
    if e.InsertCommit? || e.StartPublic? {
      InsertionFinishesNothing(c, s, e, s', f);
    } else if e.LinkCommit? || e.EmailRequestCommit? {
      ClaimFinishesNothing(c, s, e, s', f);
    } else {
      CallbackFinishesNothing(c, s, e, s', f);
    }
  }

  lemma InsertionFinishesNothing(c: Config, s: Sys, e: Event, s': Sys, f: Id)
    requires Step(c, s, e, s') && (e.InsertCommit? || e.StartPublic?)
    requires f in s.db.flows && f != s.db.next && !s.db.flows[f].status.Consumed?
    ensures f in s'.db.flows && !s'.db.flows[f].status.Consumed?
  {
    hide PublicFlowRow;
  }

  lemma ClaimFinishesNothing(c: Config, s: Sys, e: Event, s': Sys, f: Id)
    requires Step(c, s, e, s') && (e.LinkCommit? || e.EmailRequestCommit?)
    requires f in s.db.flows && f != s.db.next && !s.db.flows[f].status.Consumed?
    ensures f in s'.db.flows && !s'.db.flows[f].status.Consumed?
  {
    hide LinkRow;
  }

  lemma CallbackFinishesNothing(c: Config, s: Sys, e: Event, s': Sys, f: Id)
    requires Step(c, s, e, s') && (e.CallbackClaim? || e.CallbackFail? || e.BoundCommit?)
    requires f in s.db.flows && f != s.db.next && !s.db.flows[f].status.Consumed?
    ensures f in s'.db.flows && !s'.db.flows[f].status.Consumed?
  {
    hide FlowVisible;
  }

  /** The four sensitive events consume the proof and, when linking, the link flow: nothing else. */
  lemma SensitiveFinishes(c: Config, s: Sys, e: Event, s': Sys, f: Id)
    requires Step(c, s, e, s') && Spent(s.db, e).Some?
    requires f in s.db.flows && !s.db.flows[f].status.Consumed? && f in s'.db.flows && s'.db.flows[f].status.Consumed?
    ensures f == Spent(s.db, e).value.proof || (e.ConfirmLink? && f == e.flow)
  {
    hide Authorizes, SessionValid, CanInsertAccount, HasCredential, IdentityTaken, LiveAccounts;
  }

  lemma PublicFinishes(c: Config, s: Sys, e: Event, s': Sys, f: Id)
    requires Inv(c, s) && Step(c, s, e, s') && (e.FinishLogin? || e.FinishSignUp?)
    requires f in s.db.flows && !s.db.flows[f].status.Consumed? && f in s'.db.flows && s'.db.flows[f].status.Consumed?
    ensures s.db.flows[f].binding.None?
  {
    hide Inventory, SessionsOk, Links, History, PresentedOk, UsersOk, AccountsOk, Evidence, Claims, ChallengesOk, FreshIds, CanInsertAccount, CanFinishLogin, CanSignUp, LiveAccount;
    assert CallOk(s.db, e.call);
    RowsOk(c, s, f);
    hide Inv;
  }

  lemma SensitiveInEpoch(c: Config, s: Sys, e: Event, s': Sys, f: Id)
    requires Step(c, s, e, s') && Spent(s.db, e).Some?
    requires f in s.db.flows && (f == Spent(s.db, e).value.proof || (e.ConfirmLink? && f == e.flow))
    ensures s.db.flows[f].binding.Some? && s.db.flows[f].binding.value.user in s.db.users
    ensures s.db.flows[f].binding.value.version == s.db.users[s.db.flows[f].binding.value.user].version
  {
    hide CanInsertAccount, HasCredential, IdentityTaken, LiveAccounts, EmailMoved, FirstPasswordSet, LinkConfirmed, Unlinked, LiveAccount, AccountEnabled, Open;
  }

  /** A bound flow is only ever consumed in the epoch it was issued for. */
  lemma ConsumedInEpoch(c: Config, s: Sys, e: Event, s': Sys, f: Id)
    requires Inv(c, s) && Step(c, s, e, s')
    requires f in s.db.flows && s.db.flows[f].binding.Some? && !s.db.flows[f].status.Consumed?
    requires f in s'.db.flows && s'.db.flows[f].status.Consumed?
    ensures s.db.flows[f].binding.value.user in s.db.users
    ensures s.db.flows[f].binding.value.version == s.db.users[s.db.flows[f].binding.value.user].version
  {
    hide Step, Tables, Evidence, History, PresentedOk, CallOk;
    assert f < s.db.next by {
      FlowIdIsOld(c, s, f);
    }
    if !FinishesFlows(e) {
      OtherEventsFinishNothing(c, s, e, s', f);
    } else if e.FinishLogin? || e.FinishSignUp? {
      PublicFinishes(c, s, e, s', f);
    } else {
      SensitiveIsSpent(c, s, e, s');
      SensitiveFinishes(c, s, e, s', f);
      SensitiveInEpoch(c, s, e, s', f);
    }
  }

  lemma SensitiveIsSpent(c: Config, s: Sys, e: Event, s': Sys)
    requires Step(c, s, e, s')
    ensures Spent(s.db, e).Some? <==> e.EmailCommit? || e.FirstPasswordCommit? || e.ConfirmLink? || e.Unlink?
  {
    hide Authorizes, SessionValid, CanInsertAccount, HasCredential, IdentityTaken, LiveAccounts, EmailMoved, FirstPasswordSet, LinkConfirmed, Unlinked;
  }

  /** A challenge is only ever consumed in the epoch it was issued for, and a registration only while its user is pending. */
  lemma ChallengeConsumedInEpoch(c: Config, s: Sys, e: Event, s': Sys, v: Id)
    requires Inv(c, s) && Step(c, s, e, s')
    requires v in s.db.challenges && !s.db.challenges[v].consumed
    requires v in s'.db.challenges && s'.db.challenges[v].consumed
    ensures s.db.challenges[v].user in s.db.users
    ensures s.db.challenges[v].version == s.db.users[s.db.challenges[v].user].version
    ensures s.db.challenges[v].purpose.VerifyRegister? ==> s.db.users[s.db.challenges[v].user].status.Pending?
  {
    hide Step, Tables, Evidence, History, PresentedOk, CallOk;
    assert v < s.db.next by {
      ChallengeIdIsOld(c, s, v);
    }
    assert e.ActivateCommit? || e.ResetCommit? || e.EmailCommit? ==> e.call in s.calls ==> CallOk(s.db, e.call);
    hide Inv;
    if e.ActivateCommit? || e.ResetCommit? || e.EmailCommit? {
      ConsumedByVerify(c, s, e, s', v);
    } else {
      OtherEventsConsumeNothing(c, s, e, s', v);
    }
  }

  lemma ChallengeIdIsOld(c: Config, s: Sys, v: Id)
    requires Inv(c, s) && v in s.db.challenges
    ensures v < s.db.next
  {
  }

  lemma ConsumedByVerify(c: Config, s: Sys, e: Event, s': Sys, v: Id)
    requires Step(c, s, e, s') && (e.ActivateCommit? || e.ResetCommit? || e.EmailCommit?)
    requires e.call in s.calls ==> CallOk(s.db, e.call)
    requires v in s.db.challenges && !s.db.challenges[v].consumed
    requires v in s'.db.challenges && s'.db.challenges[v].consumed
    ensures s.db.challenges[v].user in s.db.users
    ensures s.db.challenges[v].version == s.db.users[s.db.challenges[v].user].version
    ensures s.db.challenges[v].purpose.VerifyRegister? ==> s.db.users[s.db.challenges[v].user].status.Pending?
  {
    hide Authorizes, SessionValid, CanInsertAccount, HasCredential, IdentityTaken, LiveAccounts;
  }

  lemma OtherEventsConsumeNothing(c: Config, s: Sys, e: Event, s': Sys, v: Id)
    requires Step(c, s, e, s') && !e.ActivateCommit? && !e.ResetCommit? && !e.EmailCommit?
    requires v in s.db.challenges && v < s.db.next && !s.db.challenges[v].consumed
    ensures v in s'.db.challenges && !s'.db.challenges[v].consumed
  {
    hide Step;
    StepFramed(c, s, e, s');
    if WritesChallenges(e) {
      InsertionConsumesNothing(c, s, e, s', v);
    }
  }

  lemma InsertionConsumesNothing(c: Config, s: Sys, e: Event, s': Sys, v: Id)
    requires Step(c, s, e, s') && (e.Register? || e.RecoverCommit? || e.EmailRequestCommit?)
    requires v in s.db.challenges && v < s.db.next && !s.db.challenges[v].consumed
    ensures v in s'.db.challenges && !s'.db.challenges[v].consumed
  {
    hide CanRegister, CanClaim, Claim;
    match e {
      case Register(_, _) =>
      case RecoverCommit(_) =>
      case EmailRequestCommit(_) =>
    }
  }

  lemma NextConsumesInEpoch(c: Config, s: Sys, s': Sys, f: Id)
    requires Inv(c, s) && Next(c, s, s')
    requires f in s.db.flows && s.db.flows[f].binding.Some? && !s.db.flows[f].status.Consumed?
    requires f in s'.db.flows && s'.db.flows[f].status.Consumed?
    ensures s.db.flows[f].binding.value.user in s.db.users
    ensures s.db.flows[f].binding.value.version == s.db.users[s.db.flows[f].binding.value.user].version
  {
    hide Inv, Step;
    var e :| Step(c, s, e, s');
    ConsumedInEpoch(c, s, e, s', f);
  }

  lemma NextConsumesChallengeInEpoch(c: Config, s: Sys, s': Sys, v: Id)
    requires Inv(c, s) && Next(c, s, s')
    requires v in s.db.challenges && !s.db.challenges[v].consumed && v in s'.db.challenges && s'.db.challenges[v].consumed
    ensures s.db.challenges[v].user in s.db.users
    ensures s.db.challenges[v].version == s.db.users[s.db.challenges[v].user].version
    ensures s.db.challenges[v].purpose.VerifyRegister? ==> s.db.users[s.db.challenges[v].user].status.Pending?
  {
    hide Inv, Step;
    var e :| Step(c, s, e, s');
    ChallengeConsumedInEpoch(c, s, e, s', v);
  }

  // ---- epochs

  /** Nothing ever carries a version above its user's. */
  lemma VersionsBounded(c: Config, t: seq<Sys>, i: nat)
    requires Run(c, t) && i < |t|
    ensures forall x | x in t[i].db.sessions :: t[i].db.sessions[x].user in t[i].db.users && t[i].db.sessions[x].version <= t[i].db.users[t[i].db.sessions[x].user].version
    ensures forall f | f in t[i].db.flows && t[i].db.flows[f].binding.Some? ::
              var b := t[i].db.flows[f].binding.value; b.user in t[i].db.users && b.version <= t[i].db.users[b.user].version
    ensures forall v | v in t[i].db.challenges :: t[i].db.challenges[v].user in t[i].db.users && t[i].db.challenges[v].version <= t[i].db.users[t[i].db.challenges[v].user].version
  {
    RunInv(c, t, i);
    hide Run;
    BoundedIn(c, t[i]);
  }

  lemma BoundedIn(c: Config, s: Sys)
    requires Inv(c, s)
    ensures forall x | x in s.db.sessions :: s.db.sessions[x].user in s.db.users && s.db.sessions[x].version <= s.db.users[s.db.sessions[x].user].version
    ensures forall f | f in s.db.flows && s.db.flows[f].binding.Some? ::
              var b := s.db.flows[f].binding.value; b.user in s.db.users && b.version <= s.db.users[b.user].version
    ensures forall v | v in s.db.challenges :: s.db.challenges[v].user in s.db.users && s.db.challenges[v].version <= s.db.users[s.db.challenges[v].user].version
  {
    hide Inventory, Links, History, PresentedOk, UsersOk, AccountsOk, Evidence, Claims, FreshIds, CallsOk;
    forall x | x in s.db.sessions
      ensures s.db.sessions[x].user in s.db.users && s.db.sessions[x].version <= s.db.users[s.db.sessions[x].user].version
    {
      assert SessionOk(c, s.db.users, s.db.sessions[x]);
    }
    forall f | f in s.db.flows && s.db.flows[f].binding.Some?
      ensures var b := s.db.flows[f].binding.value; b.user in s.db.users && b.version <= s.db.users[b.user].version
    {
      assert FlowOk(s.db.users, s.db.accounts, s.db.sessions, s.db.flows[f]);
    }
    forall v | v in s.db.challenges
      ensures s.db.challenges[v].user in s.db.users && s.db.challenges[v].version <= s.db.users[s.db.challenges[v].user].version
    {
      assert ChallengeOk(s.db.users, s.db.challenges[v]);
    }
  }

  /** A session of an earlier epoch is invalid forever, also after its user is disabled and enabled again. */
  lemma OldSessionNeverValid(c: Config, t: seq<Sys>, i: nat, j: nat, x: Id)
    requires Run(c, t) && i <= j < |t| && x in t[i].db.sessions
    requires t[i].db.sessions[x].user in t[i].db.users && t[i].db.sessions[x].version < t[i].db.users[t[i].db.sessions[x].user].version
    ensures forall u :: !SessionValid(t[j].db, x, u)
  {
    hide Next;
    RunEvolves(c, t, i, j);
    assert SessionEvolves(t[i].db.sessions[x], t[j].db.sessions[x]);
    var u := t[i].db.sessions[x].user;
    assert UserEvolves(t[i].db.users[u], t[j].db.users[u]);
  }

  /** A bound flow or proof of an earlier epoch never pays for a write: it is never consumed. */
  lemma {:induction false} OldFlowNeverConsumed(c: Config, t: seq<Sys>, i: nat, j: nat, f: Id)
    requires Run(c, t) && i <= j < |t| && f in t[i].db.flows && t[i].db.flows[f].binding.Some? && !t[i].db.flows[f].status.Consumed?
    requires var b := t[i].db.flows[f].binding.value; b.user in t[i].db.users && b.version < t[i].db.users[b.user].version
    ensures f in t[j].db.flows && !t[j].db.flows[f].status.Consumed?
    decreases j
  {
    hide Next, Inv;
    RunEvolves(c, t, i, j);
    assert FlowEvolves(t[i].db.flows[f], t[j].db.flows[f]);
    if i < j {
      OldFlowNeverConsumed(c, t, i, j - 1, f);
      RunEvolves(c, t, i, j - 1);
      assert FlowEvolves(t[i].db.flows[f], t[j - 1].db.flows[f]);
      assert UserEvolves(t[i].db.users[t[i].db.flows[f].binding.value.user], t[j - 1].db.users[t[i].db.flows[f].binding.value.user]);
      RunInv(c, t, j - 1);
      if t[j].db.flows[f].status.Consumed? {
        NextConsumesInEpoch(c, t[j - 1], t[j], f);
      }
    }
  }

  /** An email challenge of an earlier epoch is never consumed. */
  lemma {:induction false} OldChallengeNeverConsumed(c: Config, t: seq<Sys>, i: nat, j: nat, v: Id)
    requires Run(c, t) && i <= j < |t| && v in t[i].db.challenges && !t[i].db.challenges[v].consumed
    requires t[i].db.challenges[v].user in t[i].db.users && t[i].db.challenges[v].version < t[i].db.users[t[i].db.challenges[v].user].version
    ensures v in t[j].db.challenges && !t[j].db.challenges[v].consumed
    decreases j
  {
    hide Next, Inv;
    RunEvolves(c, t, i, j);
    assert ChallengeEvolves(t[i].db.challenges[v], t[j].db.challenges[v]);
    if i < j {
      OldChallengeNeverConsumed(c, t, i, j - 1, v);
      RunEvolves(c, t, i, j - 1);
      assert ChallengeEvolves(t[i].db.challenges[v], t[j - 1].db.challenges[v]);
      assert UserEvolves(t[i].db.users[t[i].db.challenges[v].user], t[j - 1].db.users[t[i].db.challenges[v].user]);
      RunInv(c, t, j - 1);
      if t[j].db.challenges[v].consumed {
        NextConsumesChallengeInEpoch(c, t[j - 1], t[j], v);
      }
    }
  }

  /**
   A password login, password change, password reauthentication or challenge consumption that read its
   user or challenge in an earlier epoch cannot commit any more. The login through a provider is
   different: see ProviderLoginExactly.
   */
  lemma OldCallNeverCommits(c: Config, t: seq<Sys>, i: nat, j: nat, k: Call)
    requires Run(c, t) && i <= j && j + 1 < |t|
    requires k.LoginCall? ==> k.user in t[i].db.users && k.row.version < t[i].db.users[k.user].version
    requires k.PasswordCall? ==> k.request.user in t[i].db.users && k.row.version < t[i].db.users[k.request.user].version
    requires k.ReauthenticateCall? ==> k.request.user in t[i].db.users && k.row.version < t[i].db.users[k.request.user].version
    requires k.VerifyCall? ==> k.chRow.user in t[i].db.users && k.chRow.version < t[i].db.users[k.chRow.user].version
    ensures k.LoginCall? ==> !Step(c, t[j], LoginCommit(k), t[j + 1])
    ensures k.ReauthenticateCall? ==> !Step(c, t[j], ReauthenticateCheck(k), t[j + 1])
    ensures k.VerifyCall? ==> !Step(c, t[j], ActivateCommit(k), t[j + 1]) && !Step(c, t[j], EmailCommit(k), t[j + 1])
    ensures k.VerifyCall? ==> forall a: Id :: !Step(c, t[j], ResetCommit(k, a), t[j + 1])
    ensures k.PasswordCall? ==> !Step(c, t[j], PasswordCommit(k), t[j + 1]) && !Step(c, t[j], FirstPasswordCommit(k), t[j + 1])
  {
    hide Next, Step;
    RunEvolves(c, t, i, j);
    if k.LoginCall? || k.PasswordCall? || k.ReauthenticateCall? || k.VerifyCall? {
      var u := if k.LoginCall? then k.user else if k.VerifyCall? then k.chRow.user else k.request.user;
      assert UserEvolves(t[i].db.users[u], t[j].db.users[u]);
      OldCallRefused(c, t[j], k, t[j + 1]);
    }
  }

  lemma OldCallRefused(c: Config, s: Sys, k: Call, s': Sys)
    requires k.LoginCall? ==> k.user in s.db.users && k.row.version < s.db.users[k.user].version
    requires k.PasswordCall? ==> k.request.user in s.db.users && k.row.version < s.db.users[k.request.user].version
    requires k.ReauthenticateCall? ==> k.request.user in s.db.users && k.row.version < s.db.users[k.request.user].version
    requires k.VerifyCall? ==> k.chRow.user in s.db.users && k.chRow.version < s.db.users[k.chRow.user].version
    ensures k.LoginCall? ==> !Step(c, s, LoginCommit(k), s')
    ensures k.ReauthenticateCall? ==> !Step(c, s, ReauthenticateCheck(k), s')
    ensures k.VerifyCall? ==> !Step(c, s, ActivateCommit(k), s') && !Step(c, s, EmailCommit(k), s')
    ensures k.VerifyCall? ==> forall a: Id :: !Step(c, s, ResetCommit(k, a), s')
    ensures k.PasswordCall? ==> !Step(c, s, PasswordCommit(k), s') && !Step(c, s, FirstPasswordCommit(k), s')
  {
    hide Authorizes, CanInsertAccount, HasCredential, LiveAccounts, SessionValid;
  }

  // ---- epochs and logins through a provider

  /** The step ends the epoch of u: its version rises. */
  predicate EndsEpoch(s: Sys, s': Sys, u: Id) {
    u in s.db.users && u in s'.db.users && s.db.users[u].version < s'.db.users[u].version
  }

  /** The step leaves u unable to log in, or writes to account a itself: it is unlinked, or its password changes. */
  predicate StopsLogin(e: Event, u: Id, a: Id) {
    || (e.StatusCommit? && e.call.StatusCall? && e.call.user == u && !e.call.status.Active?)
    || (e.Unlink? && e.account == a)
    || (e.PasswordCommit? && e.call.PasswordCall? && e.call.target.Some? && e.call.target.value.0 == a)
    || (e.ResetCommit? && e.account == a)
  }

  /** The step changes the version of account a: it is unlinked, or its password changes. */
  predicate MovesVersion(e: Event, a: Id) {
    || (e.Unlink? && e.account == a)
    || (e.PasswordCommit? && e.call.PasswordCall? && e.call.target.Some? && e.call.target.value.0 == a)
    || (e.ResetCommit? && e.account == a)
  }

  /** An account's version changes in exactly three ways. */
  lemma VersionMovesExactly(c: Config, s: Sys, e: Event, s': Sys, a: Id)
    requires Inv(c, s) && Step(c, s, e, s') && a in s.db.accounts
    ensures a in s'.db.accounts
    ensures s'.db.accounts[a].version != s.db.accounts[a].version <==> MovesVersion(e, a)
  {
    hide Step;
    FreshUsers(c, s);
    hide Inv;
    StepFramed(c, s, e, s');
    if e.Unlink? || e.PasswordCommit? || e.ResetCommit? {
      VersionMoves(c, s, e, s', a);
    } else if WritesAccounts(e) {
      VersionStays(c, s, e, s', a);
    }
  }

  lemma VersionMoves(c: Config, s: Sys, e: Event, s': Sys, a: Id)
    requires Step(c, s, e, s') && a in s.db.accounts && (e.Unlink? || e.PasswordCommit? || e.ResetCommit?)
    ensures a in s'.db.accounts
    ensures s'.db.accounts[a].version != s.db.accounts[a].version <==> MovesVersion(e, a)
  {
    hide Authorizes, SessionValid, RevokeSessions, BumpVersion, SetFlow, Notify, Log, ConsumeChallenge, AccountEnabled;
  }

  lemma VersionStays(c: Config, s: Sys, e: Event, s': Sys, a: Id)
    requires Step(c, s, e, s') && a in s.db.accounts && a < s.db.next
    requires e.ActivateCommit? || e.LoginCommit? || e.FirstPasswordCommit? || e.FinishSignUp? || e.ConfirmLink?
    ensures a in s'.db.accounts && s'.db.accounts[a].version == s.db.accounts[a].version
  {
    hide CanActivate, CanLogin, CanSetFirstPassword, CanSignUp, CanConfirmLink, RevokeSessions, BumpVersion, SetFlow, Notify, Log, Started, ConsumeChallenge, ExternalRow;
  }

  /**
   The exact condition for a provider login in flight, over whole runs. Its commit re-checks the
   account's version and the user's status, never the user's version: a login that could commit once
   can commit at any later point if and only if the user is active at that point, the account has not
   been unlinked or given a new password in between, and the flow is still processing and unexpired.
   No end of an epoch stops it for good in any other way.
   */
  lemma ProviderLoginExactly(c: Config, t: seq<Sys>, i: nat, j: nat, f: Id, a: Id, row: Account)
    requires Run(c, t) && i <= j < |t| && CanFinishLogin(c, t[i].db, f, a, row)
    ensures row.user in t[j].db.users && a in t[j].db.accounts && f in t[j].db.flows
    ensures CanFinishLogin(c, t[j].db, f, a, row) <==>
              && t[j].db.users[row.user].status.Active? && t[j].db.accounts[a].version == row.version
              && t[j].db.flows[f].status.Processing? && t[j].db.flows[f].expires > t[j].db.now
    ensures t[j].db.accounts[a].version != row.version ==> exists m, e :: i <= m < j && Step(c, t[m], e, t[m + 1]) && MovesVersion(e, a)
  {
    RunEvolves(c, t, i, j);
    assert UserSnapshot(t[j].db, row.user, t[i].db.users[row.user]) && AccountSnapshot(t[j].db, a, t[i].db.accounts[a]);
    assert FlowEvolves(t[i].db.flows[f], t[j].db.flows[f]);
    if t[j].db.accounts[a].version != row.version {
      hide Run;
      var m, e := VersionMovedBy(c, t, i, j, a);
    }
  }

  /** A version that differs between two states of a run was moved by a step in between. */
  lemma {:induction false} VersionMovedBy(c: Config, t: seq<Sys>, i: nat, j: nat, a: Id) returns (m: nat, e: Event)
    requires Run(c, t) && i <= j < |t| && a in t[i].db.accounts && a in t[j].db.accounts
    requires t[i].db.accounts[a].version != t[j].db.accounts[a].version
    ensures i <= m < j && Step(c, t[m], e, t[m + 1]) && MovesVersion(e, a)
    decreases j
  {
    hide Inv, Step, MovesVersion;
    assert i < j;
    RunEvolves(c, t, i, j - 1);
    assert AccountEvolves(t[i].db.accounts[a], t[j - 1].db.accounts[a]);
    if t[j - 1].db.accounts[a].version != t[i].db.accounts[a].version {
      m, e := VersionMovedBy(c, t, i, j - 1, a);
    } else {
      m := j - 1;
      assert Next(c, t[m], t[m + 1]);
      e :| Step(c, t[m], e, t[m + 1]);
      RunInv(c, t, m);
      VersionMovesExactly(c, t[m], e, t[m + 1], a);
    }
  }

  /**
   The same for the state right after one step that ends an epoch: the login cannot commit there if
   and only if the step leaves the user inactive or writes to that very account. What a step that
   disables the user has stopped, a later step that enables it makes possible again.
   */
  lemma EpochEndStopsProviderLogin(c: Config, s: Sys, e: Event, s': Sys, f: Id, a: Id, row: Account)
    requires Inv(c, s) && Step(c, s, e, s') && EndsEpoch(s, s', row.user)
    requires CanFinishLogin(c, s.db, f, a, row)
    ensures CanFinishLogin(c, s'.db, f, a, row) <==> !StopsLogin(e, row.user, a)
  {
    hide Step;
    assert forall u | u in s.db.users :: u < s.db.next by {
      FreshUsers(c, s);
    }
    hide Inv;
    StepFramed(c, s, e, s');
    if e.ActivateCommit? || e.Register? || e.FinishSignUp? {
      NoEpochEnds(c, s, e, s', row.user);
    } else if e.RevokeAll? || e.AdminRevoke? || e.StatusCommit? {
      AdministrationAndProviderLogin(c, s, e, s', f, a, row);
    } else if e.EmailCommit? {
      EmailAndProviderLogin(c, s, e, s', f, a, row);
    } else if e.FirstPasswordCommit? || e.Unlink? {
      ProofsAndProviderLogin(c, s, e, s', f, a, row);
    } else {
      PasswordsAndProviderLogin(c, s, e, s', f, a, row);
    }
  }

  lemma FreshUsers(c: Config, s: Sys)
    requires Inv(c, s)
    ensures (forall u | u in s.db.users :: u < s.db.next) && (forall a | a in s.db.accounts :: a < s.db.next)
  {
  }

  lemma NoEpochEnds(c: Config, s: Sys, e: Event, s': Sys, u: Id)
    requires Step(c, s, e, s') && u in s.db.users && u < s.db.next && (e.ActivateCommit? || e.Register? || e.FinishSignUp?)
    ensures !EndsEpoch(s, s', u)
  {
    hide CanInsertAccount, CanSignUp, SetFlow, Notify, Log, Started;
  }

  lemma AdministrationAndProviderLogin(c: Config, s: Sys, e: Event, s': Sys, f: Id, a: Id, row: Account)
    requires Step(c, s, e, s') && EndsEpoch(s, s', row.user) && (e.RevokeAll? || e.AdminRevoke? || e.StatusCommit?)
    requires CanFinishLogin(c, s.db, f, a, row)
    ensures CanFinishLogin(c, s'.db, f, a, row) <==> !StopsLogin(e, row.user, a)
  {
    hide SessionValid, RevokeSessions, Log;
  }

  lemma EmailAndProviderLogin(c: Config, s: Sys, e: Event, s': Sys, f: Id, a: Id, row: Account)
    requires Step(c, s, e, s') && EndsEpoch(s, s', row.user) && e.EmailCommit?
    requires CanFinishLogin(c, s.db, f, a, row)
    ensures CanFinishLogin(c, s'.db, f, a, row)
  {
    hide RevokeSessions, Log, Notify, SessionValid, AccountEnabled;
  }

  lemma ProofsAndProviderLogin(c: Config, s: Sys, e: Event, s': Sys, f: Id, a: Id, row: Account)
    requires Step(c, s, e, s') && EndsEpoch(s, s', row.user) && (e.FirstPasswordCommit? || e.Unlink?) && a < s.db.next
    requires CanFinishLogin(c, s.db, f, a, row)
    ensures CanFinishLogin(c, s'.db, f, a, row) <==> !StopsLogin(e, row.user, a)
  {
    hide RevokeSessions, Log, Notify, SessionValid, CanInsertAccount, HasCredential, LiveAccounts, AccountEnabled;
  }

  lemma PasswordsAndProviderLogin(c: Config, s: Sys, e: Event, s': Sys, f: Id, a: Id, row: Account)
    requires Step(c, s, e, s') && EndsEpoch(s, s', row.user) && (e.PasswordCommit? || e.ResetCommit?)
    requires CanFinishLogin(c, s.db, f, a, row)
    ensures CanFinishLogin(c, s'.db, f, a, row) <==> !StopsLogin(e, row.user, a)
  {
    hide RevokeSessions, Log, Notify, SessionValid, AccountEnabled, ConsumeChallenge;
  }

  /** In particular: after an administrator has revoked everything, a provider login that was in flight still opens a session. */
  lemma ProviderLoginSurvivesRevocation(c: Config, s: Sys, k: Call) returns (s1: Sys, s2: Sys)
    requires k in s.calls && k.FoundCall? && k.found.Some?
    requires CanFinishLogin(c, s.db, k.flowId, k.found.value.0, k.found.value.1)
    ensures var u := k.found.value.1.user;
            && Step(c, s, AdminRevoke(u), s1) && s1.db.users[u].version == s.db.users[u].version + 1
            && Step(c, s1, FinishLogin(k), s2) && s1.db.next in s2.db.sessions && s2.db.sessions[s1.db.next].user == u
            && s2.db.sessions[s1.db.next].version == s1.db.users[u].version
  {
    hide RevokeSessions, Started;
    var u := k.found.value.1.user;
    s1 := Commit(s, AllRevoked(s.db, u));
    s2 := Commit(s1, LoginFinished(c, s1.db, k.flowId, k.found.value.0, k.found.value.1));
  }

  /**
   And after an administrator has disabled the user and enabled it again, two more ends of its epoch,
   the login that was in flight all the time opens a session.
   */
  lemma ProviderLoginSurvivesDisabling(c: Config, s: Sys, k: Call) returns (t: seq<Sys>, events: seq<Event>)
    requires k in s.calls && k.FoundCall? && k.found.Some?
    requires CanFinishLogin(c, s.db, k.flowId, k.found.value.0, k.found.value.1)
    ensures |t| == 6 && |events| == 5 && t[0] == s && forall i | 0 <= i < 5 :: Step(c, t[i], events[i], t[i + 1])
    ensures var u := k.found.value.1.user;
            && events[1] == StatusCommit(StatusCall(u, Disabled)) && events[3] == StatusCommit(StatusCall(u, Active)) && events[4] == FinishLogin(k)
            && u in s.db.users && u in t[4].db.users && t[4].db.users[u].version == s.db.users[u].version + 2
            && t[4].db.next in t[5].db.sessions && t[5].db.sessions[t[4].db.next].user == u
  {
    hide Step, CanFinishLogin;
    var u := k.found.value.1.user;
    StatusDoesNotMatter(c, s.db, k.flowId, k.found.value.0, k.found.value.1);
    var s1, s2 := SetsStatus(c, s, u, Disabled);
    var s3, s4 := SetsStatus(c, s2, u, Active);
    var s5 := FinishesLogin(c, s4, k);
    t := [s, s1, s2, s3, s4, s5];
    events := [StatusCheck(u, Disabled), StatusCommit(StatusCall(u, Disabled)), StatusCheck(u, Active), StatusCommit(StatusCall(u, Active)), FinishLogin(k)];
  }

  /** Of the user, the commit of a provider login reads the status only. */
  lemma StatusDoesNotMatter(c: Config, db: Db, f: Id, a: Id, row: Account)
    requires CanFinishLogin(c, db, f, a, row)
    ensures row.user in db.users && db.users[row.user].status.Active?
    ensures forall db': Db | db'.accounts == db.accounts && db'.flows == db.flows && db'.now == db.now
                             && row.user in db'.users && db'.users[row.user].status.Active? :: CanFinishLogin(c, db', f, a, row)
  {
  }

  lemma FinishesLogin(c: Config, s: Sys, k: Call) returns (s': Sys)
    requires k in s.calls && k.FoundCall? && k.found.Some?
    requires CanFinishLogin(c, s.db, k.flowId, k.found.value.0, k.found.value.1)
    ensures Step(c, s, FinishLogin(k), s')
    ensures s.db.next in s'.db.sessions && s'.db.sessions[s.db.next].user == k.found.value.1.user
  {
    hide Started;
    s' := Commit(s, LoginFinished(c, s.db, k.flowId, k.found.value.0, k.found.value.1));
  }

  lemma SetsStatus(c: Config, s: Sys, u: Id, status: UserStatus) returns (s1: Sys, s2: Sys)
    requires u in s.db.users && !s.db.users[u].status.Pending? && Settable(status)
    ensures Step(c, s, StatusCheck(u, status), s1) && Step(c, s1, StatusCommit(StatusCall(u, status)), s2)
    ensures s.calls <= s2.calls && s2.db.accounts == s.db.accounts && s2.db.flows == s.db.flows && s2.db.now == s.db.now && s2.db.next == s.db.next
    ensures s2.db.users == s.db.users[u := s.db.users[u].(status := status, version := s.db.users[u].version + 1)]
  {
    hide RevokeSessions;
    s1 := InFlight(s, StatusCall(u, status));
    s2 := Commit(s1, StatusSet(s1.db, u, status));
  }

  // ---- rows that calls of an earlier epoch insert late

  /** The user and version that a row inserted by the event carries, when they were read before. */
  function CarriedEpoch(e: Event): Option<(Id, nat)> {
    match e
    case LinkCommit(k) => if k.LinkCall? then Some((k.request.user, k.version)) else None
    case EmailRequestCommit(k) => if k.EmailCall? then Some((k.request.user, k.version)) else None
    case InsertCommit(k) => if k.InsertCall? && k.flow.binding.Some? then Some((k.flow.binding.value.user, k.flow.binding.value.version)) else None
    case RecoverCommit(k) => if k.RecoverCall? then Some((k.user, k.row.version)) else None
    case _ => None
  }

  /**
   Starting a link or an email change, issuing a proof and recovering insert their row even when the
   user's epoch has ended since they checked it, and the two with a challenge also send its mail. The
   row carries the version that was read, so it is never consumed.
   */
  lemma LateRowsAreNeverConsumed(c: Config, t: seq<Sys>, i: nat, j: nat, e: Event)
    requires At(c, t, i, e) && i < j < |t| && CarriedEpoch(e).Some?
    requires var (u, version) := CarriedEpoch(e).value; u in t[i].db.users && version < t[i].db.users[u].version
    ensures e.LinkCommit? || e.InsertCommit? ==> t[i].db.next in t[j].db.flows && !t[j].db.flows[t[i].db.next].status.Consumed?
    ensures e.EmailRequestCommit? || e.RecoverCommit? ==>
              && t[i].db.next in t[j].db.challenges && !t[j].db.challenges[t[i].db.next].consumed
              && |t[i + 1].db.mail| == |t[i].db.mail| + 1
  {
    RunInv(c, t, i);
    InFlightInserts(c, t[i], e);
    InsertedCarries(c, t[i], e, t[i + 1]);
    hide Step, Inv;
    if e.LinkCommit? || e.InsertCommit? {
      OldFlowNeverConsumed(c, t, i + 1, j, t[i].db.next);
    } else {
      OldChallengeNeverConsumed(c, t, i + 1, j, t[i].db.next);
    }
  }

  lemma InFlightInserts(c: Config, s: Sys, e: Event)
    requires Inv(c, s)
    ensures e.InsertCommit? && e.call in s.calls && e.call.InsertCall? ==> !e.call.flow.status.Consumed?
  {
    hide Tables, Evidence, History, PresentedOk;
    if e.InsertCommit? && e.call in s.calls {
      assert CallOk(s.db, e.call);
    }
  }

  lemma InsertedCarries(c: Config, s: Sys, e: Event, s': Sys)
    requires Step(c, s, e, s') && CarriedEpoch(e).Some?
    requires e.InsertCommit? && e.call in s.calls && e.call.InsertCall? ==> !e.call.flow.status.Consumed?
    requires e.LinkCommit? ==> e.call.proof != s.db.next
    ensures s'.db.users == s.db.users
    ensures var (u, version) := CarriedEpoch(e).value;
            && (e.LinkCommit? || e.InsertCommit? ==>
                  && s.db.next in s'.db.flows && !s'.db.flows[s.db.next].status.Consumed?
                  && s'.db.flows[s.db.next].binding.Some? && s'.db.flows[s.db.next].binding.value.user == u && s'.db.flows[s.db.next].binding.value.version == version)
            && (e.EmailRequestCommit? || e.RecoverCommit? ==>
                  && s.db.next in s'.db.challenges && !s'.db.challenges[s.db.next].consumed
                  && s'.db.challenges[s.db.next].user == u && s'.db.challenges[s.db.next].version == version
                  && |s'.db.mail| == |s.db.mail| + 1)
  {
  }

  // ---- email ownership

  /** A verified address changes only in its owner's own completed change. */
  lemma AddressChangedByOwner(c: Config, s: Sys, e: Event, s': Sys, u: Id)
    requires Step(c, s, e, s') && u in s.db.users && u < s.db.next && s.db.users[u].verified
    requires u in s'.db.users && s'.db.users[u].email != s.db.users[u].email
    ensures e.EmailCommit? && e.call.VerifyCall? && e.call.chRow.user == u
    ensures s'.db.users[u].email == Some(e.call.chRow.email)
  {
    hide Step;
    StepFramed(c, s, e, s');
    if e.Register? || e.EmailCommit? {
      AddressWrite(c, s, e, s', u);
    } else if WritesUsers(e) {
      NoAddressWrite(c, s, e, s', u);
    }
  }

  lemma AddressWrite(c: Config, s: Sys, e: Event, s': Sys, u: Id)
    requires Step(c, s, e, s') && u in s.db.users && u < s.db.next && s.db.users[u].verified && (e.Register? || e.EmailCommit?)
    requires u in s'.db.users && s'.db.users[u].email != s.db.users[u].email
    ensures e.EmailCommit? && e.call.VerifyCall? && e.call.chRow.user == u
    ensures s'.db.users[u].email == Some(e.call.chRow.email)
  {
    hide Authorizes, RevokeSessions, SetFlow, Notify, ChallengeCurrent;
  }

  lemma NoAddressWrite(c: Config, s: Sys, e: Event, s': Sys, u: Id)
    requires Step(c, s, e, s') && u in s.db.users && u < s.db.next && WritesUsers(e) && !e.Register? && !e.EmailCommit?
    ensures u in s'.db.users && s'.db.users[u].email == s.db.users[u].email
  {
    hide Step;
    if e.ActivateCommit? || e.FinishSignUp? {
      ActivationKeepsAddress(c, s, e, s', u);
    } else if e.PasswordCommit? || e.FirstPasswordCommit? || e.Unlink? {
      OwnWriteKeepsAddress(c, s, e, s', u);
    } else {
      InvalidationKeepsAddress(c, s, e, s', u);
    }
  }

  lemma ActivationKeepsAddress(c: Config, s: Sys, e: Event, s': Sys, u: Id)
    requires Step(c, s, e, s') && u in s.db.users && u < s.db.next && (e.ActivateCommit? || e.FinishSignUp?)
    ensures u in s'.db.users && s'.db.users[u].email == s.db.users[u].email
  {
    hide CanInsertAccount, CanSignUp, SetFlow, Notify, Log, Started;
  }

  lemma OwnWriteKeepsAddress(c: Config, s: Sys, e: Event, s': Sys, u: Id)
    requires Step(c, s, e, s') && u in s.db.users && u < s.db.next && (e.PasswordCommit? || e.FirstPasswordCommit? || e.Unlink?)
    ensures u in s'.db.users && s'.db.users[u].email == s.db.users[u].email
  {
    hide CanChangePassword, CanSetFirstPassword, CanUnlink, RevokeSessions, SetFlow, Notify, NewPassword, Log;
  }

  lemma InvalidationKeepsAddress(c: Config, s: Sys, e: Event, s': Sys, u: Id)
    requires Step(c, s, e, s') && u in s.db.users && u < s.db.next && (e.ResetCommit? || e.RevokeAll? || e.StatusCommit? || e.AdminRevoke?)
    ensures u in s'.db.users && s'.db.users[u].email == s.db.users[u].email
  {
    hide CanReset, SessionValid, RevokeSessions, Notify, NewPassword, Log, ConsumeChallenge;
  }

  /** Over a run: if a verified user no longer has its address, some step in between was its own change away from it. */
  lemma {:induction false} AddressLeavesByOwnChange(c: Config, t: seq<Sys>, i: nat, j: nat, u: Id) returns (m: nat, e: Event)
    requires Run(c, t) && i <= j < |t| && u in t[i].db.users && t[i].db.users[u].verified
    requires u in t[j].db.users && t[j].db.users[u].email != t[i].db.users[u].email
    ensures i <= m < j && Step(c, t[m], e, t[m + 1])
    ensures e.EmailCommit? && e.call.VerifyCall? && e.call.chRow.user == u
    ensures u in t[m].db.users && t[m].db.users[u].email == t[i].db.users[u].email != Some(e.call.chRow.email)
    ensures u in t[m + 1].db.users && t[m + 1].db.users[u].email == Some(e.call.chRow.email)
    decreases j
  {
    hide Inv, Step;
    assert i < j;
    RunEvolves(c, t, i, j - 1);
    assert UserEvolves(t[i].db.users[u], t[j - 1].db.users[u]);
    if t[j - 1].db.users[u].email != t[i].db.users[u].email {
      m, e := AddressLeavesByOwnChange(c, t, i, j - 1, u);
    } else {
      m := j - 1;
      assert Next(c, t[m], t[m + 1]);
      e :| Step(c, t[m], e, t[m + 1]);
      RunInv(c, t, m);
      IdIsOld(c, t[m], u);
      AddressChangedByOwner(c, t[m], e, t[m + 1], u);
    }
  }

  lemma IdIsOld(c: Config, s: Sys, u: Id)
    requires Inv(c, s) && u in s.db.users
    ensures u < s.db.next
  {
  }

  /** In every reachable state a pending row meets every extra condition of the release statement. */
  lemma PendingIsReleasable(c: Config, t: seq<Sys>, i: nat, u: Id)
    requires Run(c, t) && i < |t| && u in t[i].db.users
    ensures Releasable(t[i].db.users, t[i].db.accounts, u) <==> t[i].db.users[u].status.Pending?
  {
    RunInv(c, t, i);
    hide Run;
    ReleasableIsPending(c, t[i], u);
  }

  lemma ReleasableIsPending(c: Config, s: Sys, u: Id)
    requires Inv(c, s) && u in s.db.users
    ensures Releasable(s.db.users, s.db.accounts, u) <==> s.db.users[u].status.Pending?
  {
    hide FlowsOk, ChallengesOk, Claims, Links, History, PresentedOk, FreshIds, CallsOk, Evidence, SessionsOk, Inventory;
    assert UserOk(s.db.users[u]);
    forall a | a in s.db.accounts
      ensures AccountOk(s.db.users, s.db.accounts[a])
    {
    }
  }

  /** The version check already implies the address checks of registration and recovery. */
  lemma CurrentChallengeNamesAddress(c: Config, t: seq<Sys>, i: nat, v: Id)
    requires Run(c, t) && i < |t| && v in t[i].db.challenges && !t[i].db.challenges[v].purpose.VerifyChange?
    requires ChallengeCurrent(t[i].db, v, t[i].db.challenges[v])
    ensures t[i].db.users[t[i].db.challenges[v].user].email == Some(t[i].db.challenges[v].email)
    ensures t[i].db.challenges[v].purpose.VerifyReset? ==>
              t[i].db.users[t[i].db.challenges[v].user].verified && t[i].db.users[t[i].db.challenges[v].user].recovery
  {
    RunInv(c, t, i);
    hide Run;
    ChallengeNames(c, t[i], v);
  }

  lemma ChallengeNames(c: Config, s: Sys, v: Id)
    requires Inv(c, s) && v in s.db.challenges
    ensures ChallengeOk(s.db.users, s.db.challenges[v])
  {
    hide FlowsOk, Claims, Links, History, PresentedOk, FreshIds, CallsOk, Evidence, SessionsOk, Inventory, AccountsOk, UsersOk;
  }

  /** Everything an email claim needs besides the address being free or held by a placeholder. */
  predicate ClaimReady(c: Config, db: Db, v: Id, row: Challenge) {
    && ChallengeCurrent(db, v, row) && row.session.Some? && row.parent.Some?
    && Authorizes(c, db, Request(row.user, row.session.value), row.parent.value, ChangeEmail(row.email), Some(v))
  }

  /** A ready claim commits if and only if no other registered user holds the address. */
  lemma ClaimExactly(c: Config, t: seq<Sys>, i: nat, v: Id, row: Challenge)
    requires Run(c, t) && i < |t|
    ensures CanMoveEmail(c, t[i].db, v, row) <==>
            ClaimReady(c, t[i].db, v, row)
            && !exists u | u in t[i].db.users :: u != row.user && t[i].db.users[u].email == Some(row.email) && !t[i].db.users[u].status.Pending?
  {
    forall u | u in t[i].db.users
      ensures Releasable(t[i].db.users, t[i].db.accounts, u) <==> t[i].db.users[u].status.Pending?
    {
      PendingIsReleasable(c, t, i, u);
    }
    hide Run, Authorizes, ChallengeCurrent, Releasable;
  }

  /** Once a claim of an address commits, no registration challenge issued before for it ever does. */
  lemma ClaimEndsRegistration(c: Config, t: seq<Sys>, i: nat, j: nat, e: Event, v: Id)
    requires At(c, t, i, e) && e.EmailCommit? && i < j < |t|
    requires v in t[i].db.challenges && t[i].db.challenges[v].purpose.VerifyRegister? && !t[i].db.challenges[v].consumed
    requires t[i].db.challenges[v].email == e.call.chRow.email
    ensures v in t[j].db.challenges && !t[j].db.challenges[v].consumed
  {
    RunInv(c, t, i);
    ClaimOutdates(c, t[i], e, t[i + 1], v);
    if t[i + 1].db.challenges[v].version < t[i + 1].db.users[t[i + 1].db.challenges[v].user].version {
      OldChallengeNeverConsumed(c, t, i + 1, j, v);
    } else {
      RegisteredNeverActivates(c, t, i + 1, j, v);
    }
  }

  lemma ClaimOutdates(c: Config, s: Sys, e: Event, s': Sys, v: Id)
    requires Inv(c, s) && Step(c, s, e, s') && e.EmailCommit?
    requires v in s.db.challenges && s.db.challenges[v].purpose.VerifyRegister? && !s.db.challenges[v].consumed
    requires s.db.challenges[v].email == e.call.chRow.email
    ensures v in s'.db.challenges && s'.db.challenges[v] == s.db.challenges[v]
    ensures var u := s.db.challenges[v].user;
            u in s'.db.users && (s'.db.challenges[v].version < s'.db.users[u].version || !s'.db.users[u].status.Pending?)
  {
    hide FlowsOk, Claims, Links, History, PresentedOk, FreshIds, Evidence, SessionsOk, Inventory, AccountsOk, UsersOk, SessionValid, FlowVisible, LiveAccount, AccountEnabled;
    assert CallOk(s.db, e.call) && ChallengeOk(s.db.users, s.db.challenges[v]);
  }

  /** A registration challenge of a user that is not pending any more is never consumed. */
  lemma {:induction false} RegisteredNeverActivates(c: Config, t: seq<Sys>, i: nat, j: nat, v: Id)
    requires Run(c, t) && i <= j < |t| && v in t[i].db.challenges && t[i].db.challenges[v].purpose.VerifyRegister? && !t[i].db.challenges[v].consumed
    requires t[i].db.challenges[v].user in t[i].db.users && !t[i].db.users[t[i].db.challenges[v].user].status.Pending?
    ensures v in t[j].db.challenges && !t[j].db.challenges[v].consumed
    decreases j
  {
    hide Next, Inv;
    RunEvolves(c, t, i, j);
    assert ChallengeEvolves(t[i].db.challenges[v], t[j].db.challenges[v]);
    if i < j {
      RegisteredNeverActivates(c, t, i, j - 1, v);
      RunEvolves(c, t, i, j - 1);
      assert ChallengeEvolves(t[i].db.challenges[v], t[j - 1].db.challenges[v]);
      assert UserEvolves(t[i].db.users[t[i].db.challenges[v].user], t[j - 1].db.users[t[i].db.challenges[v].user]);
      RunInv(c, t, j - 1);
      if t[j].db.challenges[v].consumed {
        NextConsumesChallengeInEpoch(c, t[j - 1], t[j], v);
      }
    }
  }

  /**
   Once a registration commits, a claim of its address by another user can only commit after the
   registered user has itself moved to another address in between.
   */
  lemma RegistrationBlocksClaim(c: Config, t: seq<Sys>, i: nat, j: nat, e: Event, e': Event) returns (m: nat, own: Event)
    requires At(c, t, i, e) && At(c, t, j, e') && i < j
    requires e.ActivateCommit? && e'.EmailCommit?
    requires e'.call.chRow.email == e.call.chRow.email && e'.call.chRow.user != e.call.chRow.user
    ensures i < m < j && Step(c, t[m], own, t[m + 1])
    ensures own.EmailCommit? && own.call.VerifyCall? && own.call.chRow.user == e.call.chRow.user
    ensures own.call.chRow.email != e.call.chRow.email
  {
    var u := e.call.chRow.user;
    ActivatedHolds(c, t[i], e, t[i + 1]);
    RunEvolves(c, t, i + 1, j);
    assert UserEvolves(t[i + 1].db.users[u], t[j].db.users[u]);
    RunInv(c, t, j);
    ClaimNeedsFree(c, t[j], e', t[j + 1], u);
    m, own := AddressLeavesByOwnChange(c, t, i + 1, j, u);
  }

  lemma ActivatedHolds(c: Config, s: Sys, e: Event, s': Sys)
    requires Step(c, s, e, s') && e.ActivateCommit?
    ensures var u := e.call.chRow.user;
            u in s'.db.users && s'.db.users[u].verified && s'.db.users[u].email == Some(e.call.chRow.email) && !s'.db.users[u].status.Pending?
  {
    hide CanInsertAccount;
  }

  lemma ClaimNeedsFree(c: Config, s: Sys, e: Event, s': Sys, u: Id)
    requires Step(c, s, e, s') && e.EmailCommit?
    requires u in s.db.users && u != e.call.chRow.user && !s.db.users[u].status.Pending?
    ensures s.db.users[u].email != Some(e.call.chRow.email)
  {
    hide Authorizes, EmailMoved;
  }

  // ---- the flow automaton

  /** One transition of a flow, by purpose. */
  predicate Edge(purpose: FlowPurpose, a: FlowStatus, b: FlowStatus) {
    match purpose
    case Login | SignUp =>
      || (a.Waiting? && b.Processing?) || ((a.Waiting? || a.Processing?) && b.Failed?) || (a.Processing? && b.Consumed?)
    case LinkIdentity =>
      || (a.Waiting? && b.Processing?) || ((a.Waiting? || a.Processing?) && b.Failed?) || (a.Processing? && b.Verified?) || (a.Verified? && b.Consumed?)
    case Reauthenticate =>
      || (a.Waiting? && b.Processing?) || ((a.Waiting? || a.Processing?) && b.Failed?) || (a.Processing? && b.Authorized?)
      || (a.Authorized? && b.Claimed?) || (a.Authorized? && b.Consumed?) || (a.Claimed? && b.Consumed?)
  }

  /** Every event moves a flow along one edge of its own automaton, or leaves its status alone. */
  lemma FlowMovesAlongEdges(c: Config, t: seq<Sys>, i: nat, e: Event, f: Id)
    requires At(c, t, i, e) && f in t[i].db.flows
    ensures f in t[i + 1].db.flows && t[i + 1].db.flows[f].purpose == t[i].db.flows[f].purpose
    ensures t[i + 1].db.flows[f].status == t[i].db.flows[f].status
         || Edge(t[i].db.flows[f].purpose, t[i].db.flows[f].status, t[i + 1].db.flows[f].status)
    ensures var row := t[i + 1].db.flows[f]; row.protocol <==> row.status.Waiting? || row.status.Processing?
  {
    RunInv(c, t, i);
    RunInv(c, t, i + 1);
    RunEvolves(c, t, i, i + 1);
    hide Run, Step;
    FlowEdge(c, t[i], e, t[i + 1], f);
    RowsOk(c, t[i + 1], f);
    assert FlowEvolves(t[i].db.flows[f], t[i + 1].db.flows[f]);
  }

  lemma RowsOk(c: Config, s: Sys, f: Id)
    requires Inv(c, s) && f in s.db.flows
    ensures FlowRowOk(s.db.flows[f])
  {
    hide Claims, Links, History, PresentedOk, CallsOk, Evidence, SessionsOk, Inventory, AccountsOk, UsersOk, ChallengesOk, FreshIds;
    assert FlowOk(s.db.users, s.db.accounts, s.db.sessions, s.db.flows[f]);
  }

  lemma FlowEdge(c: Config, s: Sys, e: Event, s': Sys, f: Id)
    requires Inv(c, s) && Step(c, s, e, s') && f in s.db.flows
    ensures f in s'.db.flows
    ensures s'.db.flows[f].status == s.db.flows[f].status || Edge(s.db.flows[f].purpose, s.db.flows[f].status, s'.db.flows[f].status)
  {
    hide Step, Edge, FlowRowOk, Tables, Evidence, History, PresentedOk, CallOk;
    RowsOk(c, s, f);
    assert f < s.db.next by {
      FlowIdIsOld(c, s, f);
    }
    if e.FinishLogin? || e.FinishSignUp? || e.BoundCommit? {
      assert e.call in s.calls ==> CallOk(s.db, e.call);
      hide Inv;
      CallbackEdge(c, s, e, s', f);
    } else if e.EmailCommit? || e.FirstPasswordCommit? || e.ConfirmLink? || e.Unlink? {
      hide Inv;
      SensitiveEdge(c, s, e, s', f);
    } else if e.LinkCommit? || e.EmailRequestCommit? || e.CallbackClaim? || e.CallbackFail? {
      assert (e.LinkCommit? || e.EmailRequestCommit?) && e.call in s.calls ==> CallOk(s.db, e.call);
      hide Inv;
      ClaimEdge(c, s, e, s', f);
    } else {
      hide Inv;
      NoEdge(c, s, e, s', f);
    }
  }

  lemma FlowIdIsOld(c: Config, s: Sys, f: Id)
    requires Inv(c, s) && f in s.db.flows
    ensures f < s.db.next
  {
  }

  lemma CallbackEdge(c: Config, s: Sys, e: Event, s': Sys, f: Id)
    requires Step(c, s, e, s') && f in s.db.flows && (e.FinishLogin? || e.FinishSignUp? || e.BoundCommit?)
    requires e.call in s.calls ==> CallOk(s.db, e.call)
    ensures f in s'.db.flows
    ensures s'.db.flows[f].status == s.db.flows[f].status || Edge(s.db.flows[f].purpose, s.db.flows[f].status, s'.db.flows[f].status)
  {
    hide Step, CallOk, Edge;
    if e.BoundCommit? {
      BoundEdge(c, s, e, s', f);
    } else {
      LoginEdge(c, s, e, s', f);
    }
  }

  lemma BoundEdge(c: Config, s: Sys, e: Event, s': Sys, f: Id)
    requires Step(c, s, e, s') && f in s.db.flows && (e.BoundCommit?)
    requires e.call in s.calls ==> CallOk(s.db, e.call)
    ensures f in s'.db.flows
    ensures s'.db.flows[f].status == s.db.flows[f].status || Edge(s.db.flows[f].purpose, s.db.flows[f].status, s'.db.flows[f].status)
  {
  }

  lemma LoginEdge(c: Config, s: Sys, e: Event, s': Sys, f: Id)
    requires Step(c, s, e, s') && f in s.db.flows && (e.FinishLogin? || e.FinishSignUp?)
    requires e.call in s.calls ==> CallOk(s.db, e.call)
    ensures f in s'.db.flows
    ensures s'.db.flows[f].status == s.db.flows[f].status || Edge(s.db.flows[f].purpose, s.db.flows[f].status, s'.db.flows[f].status)
  {
    hide CanInsertAccount, LiveAccount, AccountEvolves, Started, Log, ExternalRow;
  }

  lemma SensitiveEdge(c: Config, s: Sys, e: Event, s': Sys, f: Id)
    requires Step(c, s, e, s') && f in s.db.flows && (e.EmailCommit? || e.FirstPasswordCommit? || e.ConfirmLink? || e.Unlink?)
    requires FlowRowOk(s.db.flows[f])
    ensures f in s'.db.flows
    ensures s'.db.flows[f].status == s.db.flows[f].status || Edge(s.db.flows[f].purpose, s.db.flows[f].status, s'.db.flows[f].status)
  {
    hide Step, Edge, FlowRowOk;
    if e.ConfirmLink? {
      LinkEdge(c, s, e, s', f);
    } else {
      ProofEdge(c, s, e, s', f);
    }
  }

  lemma LinkEdge(c: Config, s: Sys, e: Event, s': Sys, f: Id)
    requires Step(c, s, e, s') && f in s.db.flows && (e.ConfirmLink?)
    requires FlowRowOk(s.db.flows[f])
    ensures f in s'.db.flows
    ensures s'.db.flows[f].status == s.db.flows[f].status || Edge(s.db.flows[f].purpose, s.db.flows[f].status, s'.db.flows[f].status)
  {
    hide CanInsertAccount, LiveAccount, LiveAccounts, HasCredential, IdentityTaken, SessionValid, AccountEnabled, ChallengeCurrent, RevokeSessions, Notify, Log;
  }

  lemma ProofEdge(c: Config, s: Sys, e: Event, s': Sys, f: Id)
    requires Step(c, s, e, s') && f in s.db.flows && (e.EmailCommit? || e.FirstPasswordCommit? || e.Unlink?)
    requires FlowRowOk(s.db.flows[f])
    ensures f in s'.db.flows
    ensures s'.db.flows[f].status == s.db.flows[f].status || Edge(s.db.flows[f].purpose, s.db.flows[f].status, s'.db.flows[f].status)
  {
    hide CanInsertAccount, LiveAccount, LiveAccounts, HasCredential, IdentityTaken, SessionValid, AccountEnabled, ChallengeCurrent, RevokeSessions, Notify, Log;
  }

  lemma ClaimEdge(c: Config, s: Sys, e: Event, s': Sys, f: Id)
    requires Step(c, s, e, s') && f in s.db.flows && f < s.db.next && (e.LinkCommit? || e.EmailRequestCommit? || e.CallbackClaim? || e.CallbackFail?)
    requires (e.LinkCommit? || e.EmailRequestCommit?) && e.call in s.calls ==> CallOk(s.db, e.call)
    ensures f in s'.db.flows
    ensures s'.db.flows[f].status == s.db.flows[f].status || Edge(s.db.flows[f].purpose, s.db.flows[f].status, s'.db.flows[f].status)
  {
    hide Step;
    if e.LinkCommit? || e.EmailRequestCommit? {
      ProofClaimEdge(c, s, e, s', f);
    } else {
      CallbackClaimEdge(c, s, e, s', f);
    }
  }

  lemma ProofClaimEdge(c: Config, s: Sys, e: Event, s': Sys, f: Id)
    requires Step(c, s, e, s') && f in s.db.flows && f < s.db.next && (e.LinkCommit? || e.EmailRequestCommit?)
    requires e.call in s.calls ==> CallOk(s.db, e.call)
    ensures f in s'.db.flows
    ensures s'.db.flows[f].status == s.db.flows[f].status || Edge(s.db.flows[f].purpose, s.db.flows[f].status, s'.db.flows[f].status)
  {
    hide LinkRow;
  }

  lemma CallbackClaimEdge(c: Config, s: Sys, e: Event, s': Sys, f: Id)
    requires Step(c, s, e, s') && f in s.db.flows && (e.CallbackClaim? || e.CallbackFail?)
    ensures f in s'.db.flows
    ensures s'.db.flows[f].status == s.db.flows[f].status || Edge(s.db.flows[f].purpose, s.db.flows[f].status, s'.db.flows[f].status)
  {
  }

  lemma NoEdge(c: Config, s: Sys, e: Event, s': Sys, f: Id)
    requires Step(c, s, e, s') && f in s.db.flows && f < s.db.next
    requires !FinishesFlows(e) && !e.BoundCommit? && !e.LinkCommit? && !e.EmailRequestCommit? && !e.CallbackClaim? && !e.CallbackFail?
    ensures f in s'.db.flows && s'.db.flows[f].status == s.db.flows[f].status
  {
    hide Step;
    StepFramed(c, s, e, s');
    if e.InsertCommit? || e.StartPublic? {
      InsertionIsNoEdge(c, s, e, s', f);
    }
  }

  lemma InsertionIsNoEdge(c: Config, s: Sys, e: Event, s': Sys, f: Id)
    requires Step(c, s, e, s') && f in s.db.flows && f < s.db.next && (e.InsertCommit? || e.StartPublic?)
    ensures f in s'.db.flows && s'.db.flows[f].status == s.db.flows[f].status
  {
  }

  /** Between any two states of a run a flow only moves forward; a finished or failed flow never changes again. */
  lemma FlowsOnlyMoveForward(c: Config, t: seq<Sys>, i: nat, j: nat, f: Id)
    requires Run(c, t) && i <= j < |t| && f in t[i].db.flows
    ensures f in t[j].db.flows && Forward(t[i].db.flows[f].status, t[j].db.flows[f].status)
    ensures t[i].db.flows[f].status.Consumed? || t[i].db.flows[f].status.Failed? ==> t[j].db.flows[f].status == t[i].db.flows[f].status
    ensures t[i].db.flows[f].claimedBy.Some? ==> t[j].db.flows[f].claimedBy == t[i].db.flows[f].claimedBy
  {
    hide Next;
    RunEvolves(c, t, i, j);
    assert FlowEvolves(t[i].db.flows[f], t[j].db.flows[f]);
  }

  /** The deferred failure of a callback leaves every flow that already got past processing alone. */
  lemma FailureIsHarmless(c: Config, t: seq<Sys>, i: nat, f: Id)
    requires At(c, t, i, CallbackFail(f))
    ensures !t[i].db.flows[f].status.Waiting?
    ensures !t[i].db.flows[f].status.Processing? ==> t[i + 1] == t[i]
    ensures t[i].db.flows[f].status.Processing? ==> t[i + 1].db.flows[f].status.Failed?
  {
    RunInv(c, t, i);
    hide Run;
    assert CallOk(t[i].db, CallbackCall(f)) by {
      hide Tables, Evidence, History, PresentedOk;
    }
    hide Inv;
  }

  // ---- confirming a link

  lemma LinkIsConsumed(c: Config, s: Sys, r: Request, f: Id, found: Option<Id>, s': Sys)
    requires Step(c, s, ConfirmLink(r, f, found), s')
    ensures f in s.db.flows && s.db.flows[f].status.Verified?
    ensures f in s'.db.flows && s'.db.flows[f].status.Consumed? && s'.db.flows[f].identity == s.db.flows[f].identity
    ensures s'.db.accounts == s.db.accounts
         || s'.db.accounts == s.db.accounts[s.db.next := ExternalRow(r.user, s.db.flows[f].provider.value, s.db.flows[f].identity.value)]
  {
    hide Authorizes, CanInsertAccount, LiveAccounts, IdentityTaken, SessionValid;
  }

  /** At most one confirmation of a flow ever writes anything. */
  lemma ConfirmedOnce(c: Config, t: seq<Sys>, i: nat, j: nat, f: Id, e: Event, e': Event)
    requires At(c, t, i, e) && At(c, t, j, e') && e.ConfirmLink? && e'.ConfirmLink? && e.flow == f == e'.flow
    ensures i == j
  {
    hide Step;
    if i < j {
      LinkIsConsumed(c, t[i], e.request, f, e.found, t[i + 1]);
      LinkIsConsumed(c, t[j], e'.request, f, e'.found, t[j + 1]);
      FlowsOnlyMoveForward(c, t, i + 1, j, f);
    } else if j < i {
      LinkIsConsumed(c, t[i], e.request, f, e.found, t[i + 1]);
      LinkIsConsumed(c, t[j], e'.request, f, e'.found, t[j + 1]);
      FlowsOnlyMoveForward(c, t, j + 1, i, f);
    }
  }

  /**
   After a confirmation, every repetition from the same valid session in the same epoch succeeds
   without writing, as long as the flow has not expired: the user still holds the identity.
   */
  lemma RepeatedConfirmationSucceeds(c: Config, t: seq<Sys>, i: nat, j: nat, r: Request, f: Id, found: Option<Id>)
    requires At(c, t, i, ConfirmLink(r, f, found)) && i < j < |t|
    requires LinkBoundTo(t[j].db, r, f)
    ensures LinkAlreadyConfirmed(t[j].db, r, f)
  {
    hide Step;
    LinkIsConsumed(c, t[i], r, f, found, t[i + 1]);
    FlowsOnlyMoveForward(c, t, i + 1, j, f);
    RunInv(c, t, j);
    hide Run;
    ConfirmedHolds(c, t[j], r, f);
  }

  lemma ConfirmedHolds(c: Config, s: Sys, r: Request, f: Id)
    requires Inv(c, s) && LinkBoundTo(s.db, r, f) && s.db.flows[f].status.Consumed?
    ensures LinkAlreadyConfirmed(s.db, r, f)
  {
    RowsOk(c, s, f);
    hide FlowsOk, Claims, History, PresentedOk, CallsOk, Evidence, SessionsOk, Inventory, AccountsOk, UsersOk, ChallengesOk, FreshIds;
    assert StillLinked(s.db.users, s.db.accounts, s.db.flows[f]);
  }
}
