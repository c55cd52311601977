/** Which tables each event can write; everything else is as before. */
module AccountFrames {
  import opened SessionClock
  import opened AccountTables
  import opened AccountProtocol

  predicate WritesUsers(e: Event) {
    || e.Register? || e.ActivateCommit? || e.ResetCommit? || e.EmailCommit? || e.PasswordCommit? || e.FirstPasswordCommit?
    || e.FinishSignUp? || e.Unlink? || e.RevokeAll? || e.StatusCommit? || e.AdminRevoke?
  }

  predicate WritesAccounts(e: Event) {
    || e.ActivateCommit? || e.ResetCommit? || e.LoginCommit? || e.PasswordCommit? || e.FirstPasswordCommit? || e.FinishSignUp?
    || e.ConfirmLink? || e.Unlink?
  }

  predicate WritesFlows(e: Event) {
    || e.EmailCommit? || e.FirstPasswordCommit? || e.InsertCommit? || e.StartPublic? || e.LinkCommit? || e.EmailRequestCommit?
    || e.CallbackClaim? || e.CallbackFail? || e.FinishLogin? || e.FinishSignUp? || e.BoundCommit? || e.ConfirmLink? || e.Unlink?
  }

  predicate WritesChallenges(e: Event) {
    e.Register? || e.RecoverCommit? || e.ActivateCommit? || e.ResetCommit? || e.EmailCommit? || e.EmailRequestCommit?
  }

  predicate WritesAudit(e: Event) {
    || e.ActivateCommit? || e.ResetCommit? || e.EmailCommit? || e.LoginCommit? || e.PasswordCommit? || e.FirstPasswordCommit?
    || e.FinishLogin? || e.FinishSignUp? || e.ConfirmLink? || e.Unlink? || e.RevokeSession? || e.RevokeAll? || e.StatusCommit? || e.AdminRevoke?
  }

  /** The read and check steps of calls that later commit. */
  predicate Reads(e: Event) {
    || e.RecoverRead? || e.VerifyRead? || e.LoginRead? || e.PasswordRead? || e.ReauthenticateRead? || e.ReauthenticateCheck?
    || e.StartReauthenticationCheck? || e.LinkCheck? || e.EmailCheck? || e.LoginFind? || e.BoundCheck? || e.StatusCheck?
  }

  predicate Framed(db: Db, e: Event, db': Db) {
    && (!WritesUsers(e) ==> db'.users == db.users)
    && (!WritesAccounts(e) ==> db'.accounts == db.accounts)
    && (!WritesFlows(e) ==> db'.flows == db.flows)
    && (!WritesChallenges(e) ==> db'.challenges == db.challenges)
    && (!WritesAudit(e) ==> db'.audit == db.audit)
  }

  /** The events grouped as the proofs below take them. */
  predicate Administers(e: Event) {
    e.Tick? || e.RevokeSession? || e.RevokeAll? || e.StatusCommit? || e.AdminRevoke? || e.Touch?
  }

  predicate Challenges(e: Event) {
    e.Register? || e.RecoverCommit? || e.ActivateCommit? || e.ResetCommit? || e.EmailCommit? || e.EmailRequestCommit?
  }

  predicate LogsIn(e: Event) {
    e.LoginCommit? || e.PasswordCommit? || e.FirstPasswordCommit? || e.FinishLogin? || e.FinishSignUp?
  }

  lemma ReadsWriteNothing(c: Config, s: Sys, e: Event, s': Sys)
    requires Step(c, s, e, s') && Reads(e)
    ensures s'.db == s.db && s'.history == s.history
  {
    hide Step;
    if e.RecoverRead? || e.VerifyRead? || e.LoginRead? || e.PasswordRead? || e.ReauthenticateRead? || e.LoginFind? {
      SnapshotsWriteNothing(c, s, e, s');
    } else {
      ChecksWriteNothing(c, s, e, s');
    }
  }

  lemma SnapshotsWriteNothing(c: Config, s: Sys, e: Event, s': Sys)
    requires Step(c, s, e, s')
    requires e.RecoverRead? || e.VerifyRead? || e.LoginRead? || e.PasswordRead? || e.ReauthenticateRead? || e.LoginFind?
    ensures s'.db == s.db && s'.history == s.history
  {
    hide CanRecover, ChallengeOpen, CanReadLogin, CanReadPassword, CanReadReauthentication, CanFindLogin;
  }

  lemma ChecksWriteNothing(c: Config, s: Sys, e: Event, s': Sys)
    requires Step(c, s, e, s')
    requires e.ReauthenticateCheck? || e.StartReauthenticationCheck? || e.LinkCheck? || e.EmailCheck? || e.BoundCheck? || e.StatusCheck?
    ensures s'.db == s.db && s'.history == s.history
  {
    hide CanIssueProof, CanStartReauthentication, CanStartLink, CanRequestEmail, CanCheckBound, ReauthenticationRow, ProofRow;
  }

  lemma SessionsFramed(c: Config, s: Sys, e: Event, s': Sys)
    requires Step(c, s, e, s') && (e.Tick? || e.RevokeSession? || e.Touch?)
    ensures Framed(s.db, e, s'.db)
  {
    hide SessionValid, Touched, Log;
  }

  lemma InvalidationsFramed(c: Config, s: Sys, e: Event, s': Sys)
    requires Step(c, s, e, s') && (e.RevokeAll? || e.StatusCommit? || e.AdminRevoke?)
    ensures Framed(s.db, e, s'.db)
  {
    hide SessionValid, RevokeSessions, BumpVersion, Log;
  }

  lemma ChallengesFramed(c: Config, s: Sys, e: Event, s': Sys)
    requires Step(c, s, e, s') && Challenges(e)
    ensures Framed(s.db, e, s'.db)
  {
    hide CanRegister, CanActivate, CanReset, CanMoveEmail, CanClaim, RevokeSessions, BumpVersion, Log, Notify, NewPassword, SetFlow, Release, Claim, ConsumeChallenge;
  }

  lemma LoginsFramed(c: Config, s: Sys, e: Event, s': Sys)
    requires Step(c, s, e, s') && (e.LoginCommit? || e.FinishLogin? || e.FinishSignUp?)
    ensures Framed(s.db, e, s'.db)
  {
    hide CanLogin, CanFinishLogin, CanSignUp, Log, SetFlow, HashUpgraded, Started;
  }

  lemma PasswordsFramed(c: Config, s: Sys, e: Event, s': Sys)
    requires Step(c, s, e, s') && (e.PasswordCommit? || e.FirstPasswordCommit?)
    ensures Framed(s.db, e, s'.db)
  {
    hide CanChangePassword, CanSetFirstPassword, RevokeSessions, BumpVersion, Log, Notify, NewPassword, SetFlow;
  }

  lemma FlowsFramed(c: Config, s: Sys, e: Event, s': Sys)
    requires Step(c, s, e, s') && !Reads(e) && !Administers(e) && !Challenges(e) && !LogsIn(e)
    ensures Framed(s.db, e, s'.db)
  {
    hide CanClaim, CanClaimCallback, FlowProcessing, CanConfirmLink, CanUnlink, RevokeSessions, BumpVersion, Log, Notify, SetFlow, Claim, ExternalRow;
  }

  lemma StepFramed(c: Config, s: Sys, e: Event, s': Sys)
    requires Step(c, s, e, s')
    ensures Framed(s.db, e, s'.db)
  {
    hide Step;
    if Reads(e) {
      ReadsWriteNothing(c, s, e, s');
    } else if Administers(e) {
      if e.Tick? || e.RevokeSession? || e.Touch? {
        SessionsFramed(c, s, e, s');
      } else {
        InvalidationsFramed(c, s, e, s');
      }
    } else if Challenges(e) {
      ChallengesFramed(c, s, e, s');
    } else if LogsIn(e) {
      if e.PasswordCommit? || e.FirstPasswordCommit? {
        PasswordsFramed(c, s, e, s');
      } else {
        LoginsFramed(c, s, e, s');
      }
    } else {
      FlowsFramed(c, s, e, s');
    }
  }
}
