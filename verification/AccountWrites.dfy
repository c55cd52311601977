/** Who writes what: the row-lock discipline, and the success audit of link confirmations. */
module AccountWrites {
  import opened Wrappers
  import opened SessionClock
  import opened AccountTables
  import opened AccountProtocol
  import opened AccountEvolution
  import opened AccountInvariant
  import opened AccountInduction
  import opened AccountTheorems
  import opened AccountEpochs
  import opened AccountFrames

  // ---- locks

  /** The user whose row the event's transaction locks before it reads anything else. */
  function LockedUser(e: Event): Option<Id> {
    match e
    case ActivateCommit(k) => if k.VerifyCall? then Some(k.chRow.user) else None
    case ResetCommit(k, a) => if k.VerifyCall? then Some(k.chRow.user) else None
    case EmailCommit(k) => if k.VerifyCall? then Some(k.chRow.user) else None
    case LoginCommit(k) => if k.LoginCall? then Some(k.user) else None
    case PasswordCommit(k) => if k.PasswordCall? then Some(k.request.user) else None
    case FirstPasswordCommit(k) => if k.PasswordCall? then Some(k.request.user) else None
    case FinishLogin(k) => if k.FoundCall? && k.found.Some? then Some(k.found.value.1.user) else None
    case ConfirmLink(r, f, found) => Some(r.user)
    case Unlink(r, a, p) => Some(r.user)
    case RevokeSession(r, x) => Some(r.user)
    case RevokeAll(r) => Some(r.user)
    case _ => None
  }

  /**
   Every write to an account row is made under the row lock of the account's owner, or for a user
   inserted by the same transaction. Steps without that lock never touch an account.
   */
  lemma AccountWritesHoldLock(c: Config, s: Sys, e: Event, s': Sys, a: Id)
    requires Inv(c, s) && Step(c, s, e, s')
    requires a in s'.db.accounts && (a in s.db.accounts ==> s'.db.accounts[a] != s.db.accounts[a])
    ensures LockedUser(e) == Some(s'.db.accounts[a].user) || s'.db.accounts[a].user !in s.db.users
    ensures a in s.db.accounts ==> s'.db.accounts[a].user == s.db.accounts[a].user
  {
    hide Step;
    assert FreshIds(s.db);
    hide Inv;
    if LockedUser(e).Some? {
      LockedWrites(c, s, e, s', a);
    } else {
      UnlockedWrites(c, s, e, s', a);
    }
  }

  lemma LockedWrites(c: Config, s: Sys, e: Event, s': Sys, a: Id)
    requires Step(c, s, e, s') && LockedUser(e).Some?
    requires a in s'.db.accounts && (a in s.db.accounts ==> s'.db.accounts[a] != s.db.accounts[a])
    requires FreshIds(s.db)
    ensures LockedUser(e) == Some(s'.db.accounts[a].user)
    ensures a in s.db.accounts ==> s'.db.accounts[a].user == s.db.accounts[a].user
  {
    hide Step;
    StepFramed(c, s, e, s');
    if e.ConfirmLink? {
      LinkWritesOwn(c, s, e, s', a);
    } else {
      OtherLockedWrites(c, s, e, s', a);
    }
  }

  lemma LinkWritesOwn(c: Config, s: Sys, e: Event, s': Sys, a: Id)
    requires Step(c, s, e, s') && e.ConfirmLink? && FreshIds(s.db)
    requires a in s'.db.accounts && (a in s.db.accounts ==> s'.db.accounts[a] != s.db.accounts[a])
    ensures LockedUser(e) == Some(s'.db.accounts[a].user) && a !in s.db.accounts
  {
    hide Authorizes, SessionValid, CanInsertAccount, IdentityTaken, LiveAccounts, SetFlow, Notify;
  }

  lemma OtherLockedWrites(c: Config, s: Sys, e: Event, s': Sys, a: Id)
    requires Step(c, s, e, s') && WritesAccounts(e) && LockedUser(e).Some? && !e.ConfirmLink? && FreshIds(s.db)
    requires a in s'.db.accounts && (a in s.db.accounts ==> s'.db.accounts[a] != s.db.accounts[a])
    ensures LockedUser(e) == Some(s'.db.accounts[a].user)
    ensures a in s.db.accounts ==> s'.db.accounts[a].user == s.db.accounts[a].user
  {
    hide Authorizes, SessionValid, CanInsertAccount, HasCredential, IdentityTaken, LiveAccounts, ChallengeCurrent, RevokeSessions, BumpVersion, SetFlow, Notify, Log, Started;
  }

  lemma UnlockedWrites(c: Config, s: Sys, e: Event, s': Sys, a: Id)
    requires Step(c, s, e, s') && LockedUser(e).None?
    requires a in s'.db.accounts && (a in s.db.accounts ==> s'.db.accounts[a] != s.db.accounts[a])
    requires FreshIds(s.db)
    ensures e.FinishSignUp? && s'.db.accounts[a].user == s.db.next && a !in s.db.accounts
  {
    hide Step;
    StepFramed(c, s, e, s');
    if e.FinishSignUp? {
      SignUpWrites(c, s, e, s', a);
    } else if WritesAccounts(e) {
      AccountWritersLock(c, s, e, s');
    }
  }

  lemma SignUpWrites(c: Config, s: Sys, e: Event, s': Sys, a: Id)
    requires Step(c, s, e, s') && e.FinishSignUp? && FreshIds(s.db)
    requires a in s'.db.accounts && (a in s.db.accounts ==> s'.db.accounts[a] != s.db.accounts[a])
    ensures s'.db.accounts[a].user == s.db.next && a !in s.db.accounts
  {
    hide CanSignUp, Started, SetFlow;
  }

  lemma AccountWritersLock(c: Config, s: Sys, e: Event, s': Sys)
    requires Step(c, s, e, s') && WritesAccounts(e) && !e.FinishSignUp?
    ensures LockedUser(e).Some?
  {
    hide CanActivate, CanReset, CanLogin, CanChangePassword, CanSetFirstPassword, CanConfirmLink, CanUnlink;
  }

  // ---- the success audit of link confirmations

  /** The number of link events in the audit log. */
  function LinkAudits(audit: seq<Audit>): nat {
    if audit == [] then 0 else LinkAudits(audit[..|audit| - 1]) + if audit[|audit| - 1].action.AuditLink? then 1 else 0
  }

  /** The number of recorded writes that confirmed a link. */
  function LinkWrites(history: seq<Sensitive>): nat {
    if history == [] then 0 else LinkWrites(history[..|history| - 1]) + if history[|history| - 1].grant.LinkAccount? then 1 else 0
  }

  lemma LinkAuditsAppend(audit: seq<Audit>, x: Audit)
    ensures LinkAudits(audit + [x]) == LinkAudits(audit) + if x.action.AuditLink? then 1 else 0
  {
    assert (audit + [x])[..|audit|] == audit;
  }

  lemma LinkWritesAppend(history: seq<Sensitive>, w: Sensitive)
    ensures LinkWrites(history + [w]) == LinkWrites(history) + if w.grant.LinkAccount? then 1 else 0
  {
    assert (history + [w])[..|history|] == history;
  }

  /** What an event appends to the audit log: nothing, one row, or a registration followed by a login. */
  lemma AuditOfStep(c: Config, s: Sys, e: Event, s': Sys)
    requires Step(c, s, e, s')
    ensures || (s'.db.audit == s.db.audit && !e.ConfirmLink?)
            || (exists x :: s'.db.audit == s.db.audit + [x] && (x.action.AuditLink? <==> e.ConfirmLink?))
            || (exists x, y :: s'.db.audit == s.db.audit + [x] + [y] && !e.ConfirmLink? && !x.action.AuditLink? && !y.action.AuditLink?)
  {
    hide Step;
    StepFramed(c, s, e, s');
    if WritesAudit(e) {
      AuditWrite(c, s, e, s');
    }
  }

  lemma AuditWrite(c: Config, s: Sys, e: Event, s': Sys)
    requires Step(c, s, e, s') && WritesAudit(e)
    ensures || (exists x :: s'.db.audit == s.db.audit + [x] && (x.action.AuditLink? <==> e.ConfirmLink?))
            || (exists x, y :: s'.db.audit == s.db.audit + [x] + [y] && !e.ConfirmLink? && !x.action.AuditLink? && !y.action.AuditLink?)
  {
    hide Step;
    match e {
      case ActivateCommit(_) => AuditOfActivation(c, s, e, s');
      case ResetCommit(_, _) => AuditOfReset(c, s, e, s');
      case EmailCommit(_) => AuditOfEmail(c, s, e, s');
      case LoginCommit(_) => AuditOfLogin(c, s, e, s');
      case FinishLogin(_) => AuditOfLogin(c, s, e, s');
      case PasswordCommit(_) => AuditOfPassword(c, s, e, s');
      case FirstPasswordCommit(_) => AuditOfPassword(c, s, e, s');
      case FinishSignUp(_) => AuditOfSignUp(c, s, e, s');
      case ConfirmLink(_, _, _) => AuditOfLink(c, s, e, s');
      case Unlink(_, _, _) => AuditOfLink(c, s, e, s');
      case _ => AuditOfAdministration(c, s, e, s');
    }
  }

  lemma AuditOfActivation(c: Config, s: Sys, e: Event, s': Sys)
    requires Step(c, s, e, s') && (e.ActivateCommit?)
    ensures exists x :: s'.db.audit == s.db.audit + [x] && (x.action.AuditLink? <==> e.ConfirmLink?)
  {
    hide CanActivate, Notify, ConsumeChallenge;
  }

  lemma AuditOfReset(c: Config, s: Sys, e: Event, s': Sys)
    requires Step(c, s, e, s') && (e.ResetCommit?)
    ensures exists x :: s'.db.audit == s.db.audit + [x] && (x.action.AuditLink? <==> e.ConfirmLink?)
  {
    hide CanReset, RevokeSessions, BumpVersion, Notify, NewPassword, ConsumeChallenge;
  }

  lemma AuditOfEmail(c: Config, s: Sys, e: Event, s': Sys)
    requires Step(c, s, e, s') && (e.EmailCommit?)
    ensures exists x :: s'.db.audit == s.db.audit + [x] && (x.action.AuditLink? <==> e.ConfirmLink?)
  {
    hide CanMoveEmail, RevokeSessions, Release, SetFlow, Notify, ConsumeChallenge;
  }

  lemma AuditOfLogin(c: Config, s: Sys, e: Event, s': Sys)
    requires Step(c, s, e, s') && (e.LoginCommit? || e.FinishLogin?)
    ensures exists x :: s'.db.audit == s.db.audit + [x] && (x.action.AuditLink? <==> e.ConfirmLink?)
  {
    hide CanLogin, CanFinishLogin, HashUpgraded, SetFlow, Started;
  }

  lemma AuditOfPassword(c: Config, s: Sys, e: Event, s': Sys)
    requires Step(c, s, e, s') && (e.PasswordCommit? || e.FirstPasswordCommit?)
    ensures exists x :: s'.db.audit == s.db.audit + [x] && (x.action.AuditLink? <==> e.ConfirmLink?)
  {
    hide CanChangePassword, CanSetFirstPassword, RevokeSessions, BumpVersion, SetFlow, Notify, NewPassword;
  }

  lemma AuditOfLink(c: Config, s: Sys, e: Event, s': Sys)
    requires Step(c, s, e, s') && (e.ConfirmLink? || e.Unlink?)
    ensures exists x :: s'.db.audit == s.db.audit + [x] && (x.action.AuditLink? <==> e.ConfirmLink?)
  {
    hide CanConfirmLink, CanUnlink, RevokeSessions, BumpVersion, SetFlow, Notify;
  }

  lemma AuditOfAdministration(c: Config, s: Sys, e: Event, s': Sys)
    requires Step(c, s, e, s') && (e.RevokeSession? || e.RevokeAll? || e.StatusCommit? || e.AdminRevoke?)
    ensures exists x :: s'.db.audit == s.db.audit + [x] && (x.action.AuditLink? <==> e.ConfirmLink?)
  {
    hide SessionValid, RevokeSessions, BumpVersion;
  }

  lemma AuditOfSignUp(c: Config, s: Sys, e: Event, s': Sys)
    requires Step(c, s, e, s') && e.FinishSignUp?
    ensures exists x, y :: s'.db.audit == s.db.audit + [x] + [y] && !x.action.AuditLink? && !y.action.AuditLink?
  {
    hide CanSignUp, SetFlow, Started;
  }

  lemma AuditDelta(c: Config, s: Sys, e: Event, s': Sys)
    requires Step(c, s, e, s')
    ensures LinkAudits(s'.db.audit) == LinkAudits(s.db.audit) + if e.ConfirmLink? then 1 else 0
  {
    hide Step, LinkAudits;
    AuditOfStep(c, s, e, s');
    var before := s.db.audit;
    if s'.db.audit == before {
      assert !e.ConfirmLink?;
    } else if x :| s'.db.audit == before + [x] && (x.action.AuditLink? <==> e.ConfirmLink?) {
      LinkAuditsAppend(before, x);
    } else {
      assert !e.ConfirmLink?;
      var x, y :| s'.db.audit == before + [x] + [y] && !x.action.AuditLink? && !y.action.AuditLink?;
      LinkAuditsAppend(before, x);
      LinkAuditsAppend(before + [x], y);
    }
  }

  lemma WriteDelta(c: Config, s: Sys, e: Event, s': Sys)
    requires Step(c, s, e, s')
    ensures LinkWrites(s'.history) == LinkWrites(s.history) + if e.ConfirmLink? then 1 else 0
  {
    hide Step, LinkWrites, Covers;
    SensitiveIsSpent(c, s, e, s');
    if Spent(s.db, e).Some? {
      SensitiveCovered(c, s, e, s');
      LinkWritesAppend(s.history, Spent(s.db, e).value);
    } else {
      OnlySensitiveRecorded(c, s, e, s');
    }
  }

  /** In every reachable state there is exactly one link audit per committed confirmation. */
  lemma {:induction false} LinkAuditsMatchWrites(c: Config, t: seq<Sys>, i: nat)
    requires Run(c, t) && i < |t|
    ensures LinkAudits(t[i].db.audit) == LinkWrites(t[i].history)
  {
    hide Step;
    if i > 0 {
      hide LinkAudits, LinkWrites;
      LinkAuditsMatchWrites(c, t, i - 1);
      assert Next(c, t[i - 1], t[i]);
      if t[i - 1] != t[i] {
        var e :| Step(c, t[i - 1], e, t[i]);
        AuditDelta(c, t[i - 1], e, t[i]);
        WriteDelta(c, t[i - 1], e, t[i]);
      }
    }
  }

  /** Two recorded writes never share a child: one flow has at most one success audit. */
  lemma OneWritePerChild(c: Config, t: seq<Sys>, i: nat, m: nat, n: nat)
    requires Run(c, t) && i < |t| && m < |t[i].history| && n < |t[i].history|
    requires t[i].history[m].child.Some? && t[i].history[m].child == t[i].history[n].child
    ensures m == n
  {
    RunInv(c, t, i);
    hide Run;
    ChildOnce(c, t[i], m, n);
  }

  lemma ChildOnce(c: Config, s: Sys, m: nat, n: nat)
    requires Inv(c, s) && m < |s.history| && n < |s.history|
    requires s.history[m].child.Some? && s.history[m].child == s.history[n].child
    ensures m == n
  {
    hide FlowsOk, Links, PresentedOk, CallsOk, Evidence, SessionsOk, Inventory, AccountsOk, UsersOk, ChallengesOk;
    var p, q := s.history[m].proof, s.history[n].proof;
    assert Paid(s.db.flows, s.history[m]) && Paid(s.db.flows, s.history[n]);
    assert ClaimHasChild(s.db.flows, s.db.challenges, p) && ClaimHasChild(s.db.flows, s.db.challenges, q);
    assert p == q;
  }
}
