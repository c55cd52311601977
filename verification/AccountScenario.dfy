/**
 A run in full: two users register, log in, prove their password and change their address, and the
 second one takes the address that the first one gave up.
 */
module AccountScenario {
  import opened Wrappers
  import opened SessionClock
  import opened AccountTables
  import opened AccountProtocol
  import opened AccountEvolution
  import opened AccountInvariant
  import opened AccountInduction
  import opened AccountTheorems

  /** Nobody but u differs. */
  ghost predicate OthersSame(a: map<Id, User>, b: map<Id, User>, u: Id) {
    forall w | w in b && w != u :: w in a && b[w] == a[w]
  }

  /** u is active, with this address, at this version, and a has its password. */
  predicate Member(db: Db, u: Id, a: Id, e: Email, version: nat, h: Hash) {
    && u in db.users && db.users[u] == User(Active, Some(e), true, true, version)
    && a in db.accounts && db.accounts[a] == Account(u, Credential, Identity(Local, u), Some(h), 1, false)
  }

  predicate OpenSession(db: Db, x: Id, u: Id, version: nat) {
    x in db.sessions && db.sessions[x].user == u && db.sessions[x].version == version && !db.sessions[x].revoked && Open(db.sessions[x].timing, db.now)
  }

  predicate ProofState(db: Db, p: Id, u: Id, x: Id, a: Id, g: Grant, status: FlowStatus, child: Option<Id>) {
    && p in db.flows && db.flows[p].purpose.Reauthenticate? && db.flows[p].status == status && db.flows[p].claimedBy == child
    && db.flows[p].binding == Some(Binding(u, x, 1)) && db.flows[p].proving == Some(Proving(a, 1)) && db.flows[p].grant == Some(g)
    && db.flows[p].expires > db.now
  }

  predicate Chain(c: Config, t: seq<Sys>, events: seq<Event>)
  {
    |t| == |events| + 1 && forall i | 0 <= i < |events| :: Step(c, t[i], events[i], t[i + 1])
  }

  lemma Registers(c: Config, s: Sys, e: Email) returns (s': Sys, u: Id, v: Id)
    requires Inv(c, s) && !EmailTaken(s.db.users, e)
    ensures Step(c, s, Register(u, e), s')
    ensures u !in s.db.users && u in s'.db.users && s'.db.users[u] == User(Pending, Some(e), false, false, 1)
    ensures OthersSame(s.db.users, s'.db.users, u) && s'.db.accounts == s.db.accounts
    ensures v in s'.db.challenges && s'.db.challenges[v].(expires := 0) == Challenge(u, VerifyRegister, e, 1, None, None, false, 0)
    ensures s'.db.challenges[v].expires > s'.db.now
    ensures forall a | a in s'.db.accounts :: s'.db.accounts[a].user != u
  {
    hide Inventory, SessionsOk, FlowsOk, ChallengesOk, Claims, Links, Evidence, History, PresentedOk, CallsOk;
    u, v := s.db.next, s.db.next + 1;
    s' := Commit(s, Registered(s.db, u, e));
    assert forall a | a in s.db.accounts :: AccountOk(s.db.users, s.db.accounts[a]);
  }

  /** A user without accounts can be given a password account. */
  lemma FirstCredentialFits(c: Config, s: Sys, u: Id, h: Hash)
    requires Inv(c, s) && forall a | a in s.db.accounts :: s.db.accounts[a].user != u
    ensures CanInsertAccount(s.db.accounts, CredentialRow(u, h))
  {
    hide Inventory, SessionsOk, FlowsOk, ChallengesOk, Claims, Links, Evidence, History, PresentedOk, CallsOk;
    assert forall a | a in s.db.accounts :: AccountOk(s.db.users, s.db.accounts[a]);
  }

  lemma Activates(c: Config, s: Sys, u: Id, v: Id, e: Email, h: Hash) returns (s1: Sys, s2: Sys, k: Call, a: Id)
    requires Inv(c, s) && u in s.db.users && s.db.users[u] == User(Pending, Some(e), false, false, 1)
    requires v in s.db.challenges && s.db.challenges[v].(expires := 0) == Challenge(u, VerifyRegister, e, 1, None, None, false, 0)
    requires s.db.challenges[v].expires > s.db.now && forall x | x in s.db.accounts :: s.db.accounts[x].user != u
    ensures Step(c, s, VerifyRead(v, Some(h)), s1) && Step(c, s1, ActivateCommit(k), s2)
    ensures k.VerifyCall? && k.chRow.email == e && k.chRow.user == u
    ensures Member(s2.db, u, a, e, 1, h) && OthersSame(s.db.users, s2.db.users, u)
  {
    hide Inv, CanInsertAccount, Notify, CanActivate, Activated;
    FirstCredentialFits(c, s, u, h);
    k := VerifyCall(v, s.db.challenges[v], Some(h));
    a := s.db.next;
    s1 := InFlight(s, k);
    ActivationFits(s1.db, v, k.chRow, h);
    s2 := Commit(s1, Activated(s1.db, v, k.chRow, h));
    assert Step(c, s, VerifyRead(v, Some(h)), s1);
    assert Step(c, s1, ActivateCommit(k), s2);
  }

  /** The effect of an activation that is in order. */
  lemma ActivationFits(db: Db, v: Id, row: Challenge, h: Hash)
    requires row.user in db.users && db.users[row.user] == User(Pending, Some(row.email), false, false, 1) && row.version == 1
    requires v in db.challenges && db.challenges[v] == row && !row.consumed && row.expires > db.now
    requires CanInsertAccount(db.accounts, CredentialRow(row.user, h))
    ensures CanActivate(db, v, row, h)
    ensures Member(Activated(db, v, row, h), row.user, db.next, row.email, 1, h)
    ensures OthersSame(db.users, Activated(db, v, row, h).users, row.user)
  {
    hide CanInsertAccount, Notify;
  }

  lemma LogsIn(c: Config, s: Sys, u: Id, a: Id, e: Email, h: Hash) returns (s1: Sys, s2: Sys, k: Call, x: Id)
    requires ValidLimits(c.limits) && Member(s.db, u, a, e, 1, h)
    ensures Step(c, s, LoginRead(u, a, h.password, None), s1) && Step(c, s1, LoginCommit(k), s2)
    ensures Member(s2.db, u, a, e, 1, h) && OpenSession(s2.db, x, u, 1) && s2.db.users == s.db.users
  {
    k := LoginCall(u, s.db.users[u], a, s.db.accounts[a], h.password, None);
    x := s.db.next;
    s1 := InFlight(s, k);
    s2 := Commit(s1, LoggedIn(c, s1.db, u, a, k.accountRow, None));
    StartedRegular(c.limits, s.db.now);
  }

  lemma Proves(c: Config, s: Sys, u: Id, a: Id, x: Id, e: Email, g: Grant, h: Hash) returns (events: seq<Event>, t: seq<Sys>, p: Id)
    requires Member(s.db, u, a, e, 1, h) && OpenSession(s.db, x, u, 1) && g.ChangeEmail?
    ensures |events| == 3 && Chain(c, t, events) && t[0] == s
    ensures var s' := t[3]; Member(s'.db, u, a, e, 1, h) && OpenSession(s'.db, x, u, 1) && s'.db.users == s.db.users
                            && ProofState(s'.db, p, u, x, a, g, Authorized, None)
  {
    hide Inv;
    var r := Request(u, x);
    var k := ReauthenticateCall(r, s.db.users[u], a, s.db.accounts[a], g, h.password);
    var s1 := InFlight(s, k);
    var insert := InsertCall(ProofRow(r, k.row, a, k.accountRow, g), Some(h.password));
    var s2 := InFlight(s1, insert);
    p := s.db.next;
    var s3 := s2.(db := AddFlow(s2.db, insert.flow), presented := s2.presented[p := h.password]);
    events, t := [ReauthenticateRead(r, a, g, h.password), ReauthenticateCheck(k), InsertCommit(insert)], [s, s1, s2, s3];
    assert Step(c, t[0], events[0], t[1]) && Step(c, t[1], events[1], t[2]) && Step(c, t[2], events[2], t[3]);
  }

  lemma RequestFits(c: Config, db: Db, u: Id, a: Id, x: Id, p: Id, e: Email, to: Email, h: Hash)
    requires Member(db, u, a, e, 1, h) && OpenSession(db, x, u, 1) && ProofState(db, p, u, x, a, ChangeEmail(to), Authorized, None)
    ensures CanRequestEmail(c, db, Request(u, x), to, p) && CanClaim(db, p)
  {
  }

  lemma Requests(c: Config, s: Sys, u: Id, a: Id, x: Id, p: Id, e: Email, to: Email, h: Hash) returns (events: seq<Event>, t: seq<Sys>, v: Id)
    requires Member(s.db, u, a, e, 1, h) && OpenSession(s.db, x, u, 1) && ProofState(s.db, p, u, x, a, ChangeEmail(to), Authorized, None) && p < s.db.next
    ensures |events| == 2 && Chain(c, t, events) && t[0] == s
    ensures var s' := t[2]; && Member(s'.db, u, a, e, 1, h) && OpenSession(s'.db, x, u, 1) && s'.db.users == s.db.users
                            && ProofState(s'.db, p, u, x, a, ChangeEmail(to), Claimed, Some(v))
                            && v in s'.db.challenges && s'.db.challenges[v].(expires := 0) == Challenge(u, VerifyChange, to, 1, Some(x), Some(p), false, 0)
                            && s'.db.challenges[v].expires > s'.db.now
  {
    hide CanRequestEmail;
    RequestFits(c, s.db, u, a, x, p, e, to, h);
    var r := Request(u, x);
    var k := EmailCall(r, 1, to, p);
    var s1 := InFlight(s, k);
    v := s.db.next;
    var s2 := Commit(s1, EmailRequested(s1.db, r, 1, to, p));
    events, t := [EmailCheck(r, to, p), EmailRequestCommit(k)], [s, s1, s2];
    assert Step(c, t[0], events[0], t[1]) && Step(c, t[1], events[1], t[2]);
  }

  lemma Moves(c: Config, s: Sys, u: Id, a: Id, x: Id, p: Id, v: Id, e: Email, to: Email, h: Hash) returns (s1: Sys, s2: Sys, k: Call)
    requires Member(s.db, u, a, e, 1, h) && OpenSession(s.db, x, u, 1) && ProofState(s.db, p, u, x, a, ChangeEmail(to), Claimed, Some(v))
    requires v in s.db.challenges && s.db.challenges[v].(expires := 0) == Challenge(u, VerifyChange, to, 1, Some(x), Some(p), false, 0)
    requires s.db.challenges[v].expires > s.db.now && !EmailTaken(s.db.users, to)
    ensures Step(c, s, VerifyRead(v, None), s1) && Step(c, s1, EmailCommit(k), s2)
    ensures k.VerifyCall? && k.chRow.email == to && k.chRow.user == u
    ensures u in s2.db.users && s2.db.users[u].email == Some(to) && OthersSame(s.db.users, s2.db.users, u)
  {
    k := VerifyCall(v, s.db.challenges[v], None);
    s1 := InFlight(s, k);
    assert Authorizes(c, s1.db, Request(u, x), p, ChangeEmail(to), Some(v));
    assert forall w | w in s.db.users :: s.db.users[w].email != Some(to);
    hide Authorizes, Releasable, RevokeSessions, Notify, SetFlow;
    s2 := Record(s1, EmailMoved(s1.db, v, k.chRow), Sensitive(p, ChangeEmail(to), u, Some(v)));
  }

  lemma ChainInv(c: Config, t: seq<Sys>, events: seq<Event>)
    requires Chain(c, t, events) && Inv(c, t[0])
    ensures |t| == |events| + 1 && Inv(c, t[|events|])
  {
    hide Inv, Step;
    var i := 0;
    while i < |events|
      invariant 0 <= i <= |events| && Inv(c, t[i])
    {
      StepKeeps(c, t[i], events[i], t[i + 1]);
      assert Inv(c, t[i + 1]) by { hide SysEvolves; }
      i := i + 1;
    }
  }

  lemma ChainsJoin(c: Config, t: seq<Sys>, ev: seq<Event>, t': seq<Sys>, ev': seq<Event>)
    requires Chain(c, t, ev) && Chain(c, t', ev') && t[|ev|] == t'[0]
    ensures Chain(c, t + t'[1..], ev + ev') && (t + t'[1..])[0] == t[0] && (t + t'[1..])[|ev| + |ev'|] == t'[|ev'|]
  {
    hide Step;
    var all, events := t + t'[1..], ev + ev';
    forall i | 0 <= i < |events|
      ensures Step(c, all[i], events[i], all[i + 1])
    {
      if i < |ev| {
        assert Step(c, t[i], ev[i], t[i + 1]);
      } else {
        assert all[i] == t'[i - |ev|];
        assert Step(c, t'[i - |ev|], ev'[i - |ev|], t'[i + 1 - |ev|]);
      }
    }
  }

  /** Registration, activation and first login of a new user. */
  lemma JoinsAndLogsIn(c: Config, s: Sys, e: Email, h: Hash) returns (t: seq<Sys>, events: seq<Event>, u: Id, a: Id, x: Id)
    requires Inv(c, s) && !EmailTaken(s.db.users, e)
    ensures |events| == 5 && Chain(c, t, events) && t[0] == s && Inv(c, t[5])
    ensures events[2].ActivateCommit? && events[2].call.VerifyCall? && events[2].call.chRow.email == e && events[2].call.chRow.user == u
    ensures u !in s.db.users && Member(t[5].db, u, a, e, 1, h) && OpenSession(t[5].db, x, u, 1) && OthersSame(s.db.users, t[5].db.users, u)
  {
    hide Step, Inv, EmailTaken, Member, OpenSession, OthersSame;
    var s1, v;
    s1, u, v := Registers(c, s, e);
    StepKeeps(c, s, Register(u, e), s1);
    var s2, s3, k3;
    s2, s3, k3, a := Activates(c, s1, u, v, e, h);
    LimitsValid(c, s);
    var s4, s5, k5;
    s4, s5, k5, x := LogsIn(c, s3, u, a, e, h);
    t := [s, s1, s2, s3, s4, s5];
    events := [Register(u, e), VerifyRead(v, Some(h)), ActivateCommit(k3), LoginRead(u, a, h.password, None), LoginCommit(k5)];
    assert Chain(c, t, events);
    ChainInv(c, t, events);
    OthersCompose(s.db.users, s1.db.users, s3.db.users, u);
  }

  /** Twelve steps: a new user with address e joins, proves its password, and moves to another address. */
  lemma RegistersAndMoves(c: Config, s: Sys, e: Email, to: Email, h: Hash) returns (t: seq<Sys>, events: seq<Event>, u: Id)
    requires Inv(c, s) && e != to && !EmailTaken(s.db.users, e) && !EmailTaken(s.db.users, to)
    ensures |events| == 12 && Chain(c, t, events) && t[0] == s && Inv(c, t[12])
    ensures events[2].ActivateCommit? && events[2].call.VerifyCall? && events[2].call.chRow.email == e && events[2].call.chRow.user == u
    ensures events[11].EmailCommit? && events[11].call.VerifyCall? && events[11].call.chRow.email == to && events[11].call.chRow.user == u
    ensures u !in s.db.users && u in t[12].db.users && t[12].db.users[u].email == Some(to) && OthersSame(s.db.users, t[12].db.users, u)
  {
    hide Step, Inv, EmailTaken, Member, OpenSession, ProofState, OthersSame, Chain;
    var t1, ev1, a, x;
    t1, ev1, u, a, x := JoinsAndLogsIn(c, s, e, h);
    ChainLength(c, t1, ev1);
    var ev2, t2, p := Proves(c, t1[5], u, a, x, e, ChangeEmail(to), h);
    ChainLength(c, t2, ev2);
    ChainInv(c, t2, ev2);
    ProofIsOld(c, t2[3], p, u, x, a, ChangeEmail(to));
    var ev3, t3, v := Requests(c, t2[3], u, a, x, p, e, to, h);
    ChainLength(c, t3, ev3);
    ChainInv(c, t3, ev3);
    StillFree(s.db.users, t3[2].db, u, a, e, to, h);
    var s1, s2, k := Moves(c, t3[2], u, a, x, p, v, e, to, h);
    var t4, ev4 := [t3[2], s1, s2], [VerifyRead(v, None), EmailCommit(k)];
    ChainOfTwo(c, t4, ev4);
    ChainsJoin(c, t1, ev1, t2, ev2);
    ChainsJoin(c, t1 + t2[1..], ev1 + ev2, t3, ev3);
    ChainsJoin(c, t1 + t2[1..] + t3[1..], ev1 + ev2 + ev3, t4, ev4);
    t, events := t1 + t2[1..] + t3[1..] + t4[1..], ev1 + ev2 + ev3 + ev4;
    ChainInv(c, t4, ev4);
    OthersCompose(s.db.users, t1[5].db.users, s2.db.users, u);
  }

  lemma ChainLength(c: Config, t: seq<Sys>, events: seq<Event>)
    requires Chain(c, t, events)
    ensures |t| == |events| + 1
  {
  }

  lemma ChainOfTwo(c: Config, t: seq<Sys>, events: seq<Event>)
    requires |t| == 3 && |events| == 2 && Step(c, t[0], events[0], t[1]) && Step(c, t[1], events[1], t[2])
    ensures Chain(c, t, events)
  {
    hide Step;
  }

  lemma LimitsValid(c: Config, s: Sys)
    requires Inv(c, s)
    ensures ValidLimits(c.limits)
  {
  }

  lemma ProofIsOld(c: Config, s: Sys, p: Id, u: Id, x: Id, a: Id, g: Grant)
    requires Inv(c, s) && ProofState(s.db, p, u, x, a, g, Authorized, None)
    ensures p < s.db.next
  {
  }

  lemma StillFree(users: map<Id, User>, db: Db, u: Id, a: Id, e: Email, to: Email, h: Hash)
    requires !EmailTaken(users, to) && e != to && OthersSame(users, db.users, u) && Member(db, u, a, e, 1, h)
    ensures !EmailTaken(db.users, to)
  {
  }

  lemma OthersCompose(a: map<Id, User>, b: map<Id, User>, d: map<Id, User>, u: Id)
    requires OthersSame(a, b, u) && OthersSame(b, d, u)
    ensures OthersSame(a, d, u)
  {
  }

  /**
   Registration and claim of one address do not exclude each other over a long run: here user u
   registers it and moves away, and then user w claims it. Both commits succeed.
   */
  lemma AddressCanBeRegisteredThenClaimed(c: Config, s: Sys, e: Email, away: Email, other: Email, h: Hash)
      returns (t: seq<Sys>, i: nat, j: nat, activation: Event, claim: Event)
    requires ValidLimits(c.limits) && Init(s) && e != away && e != other && away != other
    ensures t != [] && t[0] == s && Run(c, t)
    ensures At(c, t, i, activation) && At(c, t, j, claim) && i < j
    ensures activation.ActivateCommit? && activation.call.VerifyCall? && claim.EmailCommit? && claim.call.VerifyCall?
    ensures activation.call.chRow.email == e == claim.call.chRow.email && activation.call.chRow.user != claim.call.chRow.user
  {
    hide Step, Inv;
    InitInv(c, s);
    var t1, ev1, u := RegistersAndMoves(c, s, e, away, h);
    assert forall w | w in t1[12].db.users :: w == u;
    var t2, ev2, w := RegistersAndMoves(c, t1[12], other, e, h);
    t := t1 + t2[1..];
    i, j, activation, claim := 2, 23, ev1[2], ev2[11];
    forall m | 0 <= m < |t| - 1
      ensures Next(c, t[m], t[m + 1])
    {
      if m < 12 {
        assert Step(c, t1[m], ev1[m], t1[m + 1]);
      } else {
        assert t[m] == t2[m - 12] && t[m + 1] == t2[m - 11];
        assert Step(c, t2[m - 12], ev2[m - 12], t2[m - 11]);
      }
    }
    assert t[23] == t2[11] && t[24] == t2[12];
  }
}
