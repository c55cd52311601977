/**
 The Postgres lock backend: a pool of connections, each with a server session that holds advisory
 locks until it unlocks them or dies. Replies can be lost at any point, a session can die at any
 point, and the server may still carry out a request whose connection the client has given up.
 */
module LockPool {
  import opened Wrappers

  type Id = nat

  /** The pair of integers a name is hashed to. */
  type Key = nat

  /** A client connection: in the pool, inside a lock request, behind a lease, inside an unlock request, or closed. */
  datatype Conn =
    | Pooled
    | Locking(key: Key, grant: Grant)
    | Leased(lease: Id, key: Key, ticket: nat)
    | Unlocking(key: Key, answer: Option<bool>)
    | Closed(pending: Option<Request>)

  /** The server's answer to a lock request; grants are numbered in the order in which the server makes them. */
  datatype Grant = NoAnswer | Refused | Granted(ticket: nat)

  datatype Request = Lock(key: Key) | Unlock(key: Key)

  /** The server's side: how often the session holds each key. A dead session holds nothing. */
  datatype Session = Session(alive: bool, locks: multiset<Key>)

  datatype Lease = Lease(key: Key, conn: Option<Id>)

  datatype State = State(conns: map<Id, Conn>, sessions: map<Id, Session>, leases: map<Id, Lease>, nextLease: Id, tickets: nat)

  datatype Event =
    | Open(conn: Id)
    | AskLock(conn: Id, key: Key)
    | ServeLock(conn: Id)
    | LockReply(conn: Id)
    | LockFails(conn: Id)
    | Release(lease: Id)
    | ServeUnlock(conn: Id)
    | UnlockReply(conn: Id)
    | UnlockFails(conn: Id)
    | ServeLate(conn: Id)
    | SessionDies(conn: Id)

  function SetConn(s: State, c: Id, k: Conn): State {
    s.(conns := s.conns[c := k])
  }

  function SetSession(s: State, c: Id, n: Session): State {
    s.(sessions := s.sessions[c := n])
  }

  /** Some other live session holds the key. */
  predicate TakenElsewhere(s: State, c: Id, k: Key) {
    exists d | d in s.sessions :: d != c && s.sessions[d].alive && k in s.sessions[d].locks
  }

  /** pg_try_advisory_lock and pg_advisory_unlock on a live session, with their answers. */
  function Served(s: State, c: Id, r: Request): (State, bool)
    requires c in s.sessions
  {
    var n := s.sessions[c];
    match r
    case Lock(k) =>
      if TakenElsewhere(s, c, k) then (s, false) else (SetSession(s, c, n.(locks := n.locks + multiset{k})), true)
    case Unlock(k) =>
      if k in n.locks then (SetSession(s, c, n.(locks := n.locks - multiset{k})), true) else (s, false)
  }

  predicate Known(s: State, c: Id) {
    c in s.conns && c in s.sessions
  }

  predicate Step(s: State, e: Event, s': State) {
    match e
    case Open(c) => c !in s.conns && c !in s.sessions && s' == SetSession(SetConn(s, c, Pooled), c, Session(true, multiset{}))
    case AskLock(c, k) => Known(s, c) && s.conns[c].Pooled? && s' == SetConn(s, c, Locking(k, NoAnswer))
    case ServeLock(c) =>
      && Known(s, c) && s.conns[c].Locking? && s.conns[c].grant.NoAnswer? && s.sessions[c].alive
      && var (after, answer) := Served(s, c, Lock(s.conns[c].key));
      && s' == SetConn(after, c, Locking(s.conns[c].key, if answer then Granted(s.tickets) else Refused)).(tickets := s.tickets + 1)
    case LockReply(c) =>
      && Known(s, c) && s.conns[c].Locking? && !s.conns[c].grant.NoAnswer?
      && s' == if s.conns[c].grant.Granted?
               then SetConn(s, c, Leased(s.nextLease, s.conns[c].key, s.conns[c].grant.ticket)).(leases := s.leases[s.nextLease := Lease(s.conns[c].key, Some(c))], nextLease := s.nextLease + 1)
               else SetConn(s, c, Pooled)
    case LockFails(c) =>
      // Any error, whether or not the server got the request: the connection never goes back to the pool.
      && Known(s, c) && s.conns[c].Locking?
      && s' == SetConn(s, c, Closed(if s.conns[c].grant.NoAnswer? then Some(Lock(s.conns[c].key)) else None))
    case Release(l) =>
      && l in s.leases
      && s' == if s.leases[l].conn.None? then s
               else SetConn(s, s.leases[l].conn.value, Unlocking(s.leases[l].key, None)).(leases := s.leases[l := s.leases[l].(conn := None)])
    case ServeUnlock(c) =>
      && Known(s, c) && s.conns[c].Unlocking? && s.conns[c].answer.None? && s.sessions[c].alive
      && var (after, answer) := Served(s, c, Unlock(s.conns[c].key));
      && s' == SetConn(after, c, Unlocking(s.conns[c].key, Some(answer)))
    case UnlockReply(c) =>
      && Known(s, c) && s.conns[c].Unlocking? && s.conns[c].answer.Some?
      && s' == SetConn(s, c, if s.conns[c].answer.value then Pooled else Closed(None))
    case UnlockFails(c) =>
      && Known(s, c) && s.conns[c].Unlocking?
      && s' == SetConn(s, c, Closed(if s.conns[c].answer.None? then Some(Unlock(s.conns[c].key)) else None))
    case ServeLate(c) =>
      // The server carries out a request before it notices that the client has gone.
      && Known(s, c) && s.conns[c].Closed? && s.conns[c].pending.Some? && s.sessions[c].alive
      && s' == SetConn(Served(s, c, s.conns[c].pending.value).0, c, Closed(None))
    case SessionDies(c) => c in s.sessions && s' == SetSession(s, c, Session(false, multiset{}))
  }

  ghost predicate Next(s: State, s': State) {
    s == s' || exists e :: Step(s, e, s')
  }

  ghost predicate Run(t: seq<State>) {
    && t != [] && t[0] == State(map[], map[], map[], 0, 0)
    && forall i | 0 <= i < |t| - 1 :: Next(t[i], t[i + 1])
  }

  // ---- the invariant

  /** What the session behind a connection holds while it is alive. */
  predicate ConnOk(s: State, c: Id)
    requires c in s.conns
  {
    && c in s.sessions
    && var n := s.sessions[c];
    && (!n.alive ==> n.locks == multiset{})
    && match s.conns[c]
       case Pooled => n.locks == multiset{}
       case Locking(k, grant) => n.locks == if n.alive && grant.Granted? then multiset{k} else multiset{}
       case Leased(l, k, _) => l in s.leases && s.leases[l] == Lease(k, Some(c)) && (n.alive ==> n.locks == multiset{k})
       case Unlocking(k, answer) => (n.alive && answer.None? ==> n.locks == multiset{k}) && (answer.Some? ==> n.locks == multiset{})
       case Closed(pending) => |n.locks| <= 1 && (pending.Some? && pending.value.Lock? ==> n.locks == multiset{})
  }

  ghost predicate ConnsOk(s: State) {
    forall c | c in s.conns :: ConnOk(s, c)
  }

  /** The server never lets two live sessions hold one key. */
  ghost predicate Exclusive(s: State) {
    forall c, d | c in s.sessions && d in s.sessions && c != d && s.sessions[c].alive && s.sessions[d].alive ::
      forall k | k in s.sessions[c].locks :: k !in s.sessions[d].locks
  }

  predicate LeaseOk(s: State, l: Id)
    requires l in s.leases
  {
    l < s.nextLease && (s.leases[l].conn.Some? ==> s.leases[l].conn.value in s.conns && s.conns[s.leases[l].conn.value].Leased? && s.conns[s.leases[l].conn.value].lease == l)
  }

  ghost predicate LeasesOk(s: State) {
    && (forall l | l in s.leases :: LeaseOk(s, l))
    && (forall c | c in s.sessions :: c in s.conns)
  }

  /** The session behind a live lease is still alive. */
  predicate Alive(s: State, l: Id) {
    && l in s.leases && s.leases[l].conn.Some? && s.leases[l].conn.value in s.sessions && s.sessions[s.leases[l].conn.value].alive
  }

  /** The server granted the key to this connection, and the connection has not given it back. */
  predicate Stamped(k: Conn) {
    k.Leased? || (k.Locking? && k.grant.Granted?)
  }

  function Ticket(k: Conn): nat
    requires Stamped(k)
  {
    if k.Leased? then k.ticket else k.grant.ticket
  }

  /** Of two grants of one key that were not given back, the session of the earlier one has died. */
  predicate PairOk(s: State, c: Id, d: Id)
    requires c in s.conns && d in s.conns
  {
    Stamped(s.conns[c]) && Stamped(s.conns[d]) && c != d ==>
      && Ticket(s.conns[c]) != Ticket(s.conns[d])
      && (s.conns[c].key == s.conns[d].key && Ticket(s.conns[c]) < Ticket(s.conns[d]) ==> c in s.sessions && !s.sessions[c].alive)
  }

  ghost predicate PairsOk(s: State) {
    && (forall c | c in s.conns && Stamped(s.conns[c]) :: Ticket(s.conns[c]) < s.tickets)
    && (forall c, d | c in s.conns && d in s.conns :: PairOk(s, c, d))
  }

  ghost predicate Inv(s: State) {
    ConnsOk(s) && Exclusive(s) && LeasesOk(s) && PairsOk(s)
  }

  /** The connection an event is about. */
  function Mover(s: State, e: Event): Option<Id> {
    match e
    case Release(l) => if l in s.leases then s.leases[l].conn else None
    case _ => Some(e.conn)
  }

  lemma OthersUntouched(s: State, e: Event, s': State, c: Id)
    requires Step(s, e, s') && Mover(s, e) != Some(c)
    ensures c in s'.conns <==> c in s.conns
    ensures c in s'.sessions <==> c in s.sessions
    ensures c in s.conns ==> s'.conns[c] == s.conns[c]
    ensures c in s.sessions ==> s'.sessions[c] == s.sessions[c]
    ensures forall l | l in s.leases && s.leases[l].conn == Some(c) :: l in s'.leases && (l < s.nextLease ==> s'.leases[l] == s.leases[l])
  {
    hide TakenElsewhere;
  }

  lemma StepConn(s: State, e: Event, s': State, c: Id)
    requires ConnsOk(s) && LeasesOk(s) && Step(s, e, s') && c in s'.conns
    ensures ConnOk(s', c)
  {
    hide Step, ConnsOk, LeasesOk;
    if Mover(s, e) == Some(c) {
      Facts(s, e, c);
      MoverOk(s, e, s', c);
    } else {
      OthersUntouched(s, e, s', c);
      assert c in s.conns;
      Facts(s, e, c);
    }
  }

  lemma Facts(s: State, e: Event, c: Id)
    requires ConnsOk(s) && LeasesOk(s)
    ensures c in s.conns ==> ConnOk(s, c)
    ensures c in s.conns && s.conns[c].Leased? ==> s.conns[c].lease in s.leases && s.conns[c].lease < s.nextLease
    ensures e.Release? && e.lease in s.leases ==> LeaseOk(s, e.lease)
    ensures s.sessions.Keys <= s.conns.Keys
  {
    assert c in s.conns ==> ConnOk(s, c);
    assert c in s.conns && s.conns[c].Leased? ==> LeaseOk(s, s.conns[c].lease);
  }

  lemma MoverOk(s: State, e: Event, s': State, c: Id)
    requires Step(s, e, s') && Mover(s, e) == Some(c) && c in s'.conns
    requires c in s.conns ==> ConnOk(s, c)
    requires e.Release? ==> e.lease in s.leases && LeaseOk(s, e.lease)
    requires s.sessions.Keys <= s.conns.Keys
    ensures ConnOk(s', c)
  {
    hide TakenElsewhere;
    match e
    case ServeLock(_) => ServeLockOk(s, e, s', c);
    case ServeUnlock(_) => ServeUnlockOk(s, e, s', c);
    case ServeLate(_) => ServeLateOk(s, e, s', c);
    case _ => {}
  }

  lemma ServeLockOk(s: State, e: Event, s': State, c: Id)
    requires e.ServeLock? && Step(s, e, s') && e.conn == c && c in s.conns && ConnOk(s, c)
    ensures c in s'.conns && ConnOk(s', c)
  {
    hide TakenElsewhere;
    assert multiset{} + multiset{s.conns[c].key} == multiset{s.conns[c].key};
  }

  lemma ServeUnlockOk(s: State, e: Event, s': State, c: Id)
    requires e.ServeUnlock? && Step(s, e, s') && e.conn == c && c in s.conns && ConnOk(s, c)
    ensures c in s'.conns && ConnOk(s', c)
  {
    assert multiset{s.conns[c].key} - multiset{s.conns[c].key} == multiset{};
  }

  lemma ServeLateOk(s: State, e: Event, s': State, c: Id)
    requires e.ServeLate? && Step(s, e, s') && e.conn == c && c in s.conns && ConnOk(s, c)
    ensures c in s'.conns && ConnOk(s', c)
  {
    hide TakenElsewhere;
  }

  lemma StepLeases(s: State, e: Event, s': State)
    requires ConnsOk(s) && LeasesOk(s) && Step(s, e, s')
    ensures LeasesOk(s')
  {
    hide TakenElsewhere, ConnsOk;
    forall l | l in s'.leases
      ensures LeaseOk(s', l)
    {
      assert l in s.leases ==> LeaseOk(s, l);
      if e.Release? {
        assert LeaseOk(s, e.lease);
      }
    }
  }

  /** A live session gains a key only by the event's own lock request, and only while nobody else has it. */
  lemma SessionStep(s: State, e: Event, s': State, c: Id, k: Key)
    requires Step(s, e, s') && c in s'.sessions && s'.sessions[c].alive && k in s'.sessions[c].locks
    ensures c in s.sessions && s.sessions[c].alive
    ensures k in s.sessions[c].locks || (Mover(s, e) == Some(c) && !TakenElsewhere(s, c, k))
  {
    hide Step, TakenElsewhere;
    if e.ServeLock? || e.ServeUnlock? || e.ServeLate? {
      ServedSessionStep(s, e, s', c, k);
    } else {
      PlainSessionStep(s, e, s', c, k);
    }
  }

  lemma ServedSessionStep(s: State, e: Event, s': State, c: Id, k: Key)
    requires Step(s, e, s') && (e.ServeLock? || e.ServeUnlock? || e.ServeLate?) && c in s'.sessions && s'.sessions[c].alive && k in s'.sessions[c].locks
    ensures c in s.sessions && s.sessions[c].alive
    ensures k in s.sessions[c].locks || (Mover(s, e) == Some(c) && !TakenElsewhere(s, c, k))
  {
    hide TakenElsewhere;
  }

  lemma PlainSessionStep(s: State, e: Event, s': State, c: Id, k: Key)
    requires Step(s, e, s') && !e.ServeLock? && !e.ServeUnlock? && !e.ServeLate? && c in s'.sessions && s'.sessions[c].alive && k in s'.sessions[c].locks
    ensures c in s.sessions && s.sessions[c].alive
    ensures k in s.sessions[c].locks || (Mover(s, e) == Some(c) && !TakenElsewhere(s, c, k))
  {
  }

  lemma StepExclusive(s: State, e: Event, s': State)
    requires Exclusive(s) && Step(s, e, s')
    ensures Exclusive(s')
  {
    hide Step, Mover;
    forall c, d, k | c in s'.sessions && d in s'.sessions && c != d && s'.sessions[c].alive && s'.sessions[d].alive && k in s'.sessions[c].locks
      ensures k !in s'.sessions[d].locks
    {
      SessionStep(s, e, s', c, k);
      if k in s'.sessions[d].locks {
        SessionStep(s, e, s', d, k);
      }
    }
  }

  /** A grant keeps its number; a new one is the latest, and then no other live session has the key. */
  lemma GrantStep(s: State, e: Event, s': State, c: Id)
    requires Step(s, e, s') && c in s'.conns && Stamped(s'.conns[c])
    ensures c in s.conns && (s.conns[c].Locking? || s.conns[c].Leased?) && s'.conns[c].key == s.conns[c].key
    ensures s.tickets <= s'.tickets
    ensures || (Stamped(s.conns[c]) && Ticket(s'.conns[c]) == Ticket(s.conns[c]))
            || (Mover(s, e) == Some(c) && Ticket(s'.conns[c]) == s.tickets < s'.tickets && !TakenElsewhere(s, c, s'.conns[c].key))
  {
    hide TakenElsewhere;
  }

  lemma SessionKept(s: State, e: Event, s': State, c: Id)
    requires Step(s, e, s') && c in s.sessions
    ensures c in s'.sessions && (!s.sessions[c].alive ==> !s'.sessions[c].alive)
  {
    hide TakenElsewhere;
  }

  lemma StepPairs(s: State, e: Event, s': State)
    requires Inv(s) && Step(s, e, s')
    ensures PairsOk(s')
  {
    hide Step, ConnsOk, Exclusive, LeasesOk, PairOk, ConnOk, TakenElsewhere, Mover;
    forall c | c in s'.conns && Stamped(s'.conns[c])
      ensures Ticket(s'.conns[c]) < s'.tickets
    {
      GrantStep(s, e, s', c);
    }
    forall c, d | c in s'.conns && d in s'.conns
      ensures PairOk(s', c, d)
    {
      StepPair(s, e, s', c, d);
    }
  }

  lemma StepPair(s: State, e: Event, s': State, c: Id, d: Id)
    requires Inv(s) && Step(s, e, s') && c in s'.conns && d in s'.conns
    ensures PairOk(s', c, d)
  {
    hide Step, Mover, Exclusive, LeasesOk;
    if Stamped(s'.conns[c]) && Stamped(s'.conns[d]) && c != d {
      GrantStep(s, e, s', c);
      GrantStep(s, e, s', d);
      assert PairOk(s, c, d) && ConnOk(s, c);
      SessionKept(s, e, s', c);
      if Stamped(s.conns[c]) && s.sessions[c].alive && s.conns[c].key == s.conns[d].key {
        assert s.conns[c].key in multiset{s.conns[c].key};
        assert TakenElsewhere(s, d, s.conns[c].key);
      }
    }
  }

  lemma StepInv(s: State, e: Event, s': State)
    requires Inv(s) && Step(s, e, s')
    ensures Inv(s')
  {
    hide Step, ConnOk, Exclusive, LeasesOk, PairsOk;
    forall c | c in s'.conns
      ensures ConnOk(s', c)
    {
      StepConn(s, e, s', c);
    }
    StepLeases(s, e, s');
    StepExclusive(s, e, s');
    StepPairs(s, e, s');
  }

  lemma {:induction false} RunInv(t: seq<State>, i: nat)
    requires Run(t) && i < |t|
    ensures Inv(t[i])
  {
    if i > 0 {
      hide Inv, Step;
      RunInv(t, i - 1);
      assert Next(t[i - 1], t[i]);
      if t[i - 1] != t[i] {
        var e :| Step(t[i - 1], e, t[i]);
        StepInv(t[i - 1], e, t[i]);
      }
    }
  }

  // ---- what follows

  /** No connection in the pool ever holds an advisory lock, whatever replies were lost and whatever unlocks failed. */
  lemma PoolIsClean(t: seq<State>, i: nat, c: Id)
    requires Run(t) && i < |t| && c in t[i].conns && t[i].conns[c].Pooled?
    ensures c in t[i].sessions && t[i].sessions[c].locks == multiset{}
  {
    RunInv(t, i);
    assert ConnOk(t[i], c);
  }

  /** A lease whose session lives holds exactly its key there, and nobody else does. */
  lemma LeaseHoldsItsKey(t: seq<State>, i: nat, l: Id)
    requires Run(t) && i < |t| && Alive(t[i], l)
    ensures var c := t[i].leases[l].conn.value; t[i].sessions[c].locks == multiset{t[i].leases[l].key} && !TakenElsewhere(t[i], c, t[i].leases[l].key)
  {
    RunInv(t, i);
    assert LeaseOk(t[i], l);
    assert ConnOk(t[i], t[i].leases[l].conn.value);
  }

  /** When the server granted the lock of a lease that was not released. */
  function GrantOf(s: State, l: Id): Option<nat> {
    if l in s.leases && s.leases[l].conn.Some? && s.leases[l].conn.value in s.conns && s.conns[s.leases[l].conn.value].Leased?
    then Some(s.conns[s.leases[l].conn.value].ticket) else None
  }

  /** Two unreleased leases on one key exist only if the session of the one granted earlier has died. */
  lemma OnlyOneLeaseIsAlive(t: seq<State>, i: nat, a: Id, b: Id)
    requires Run(t) && i < |t| && a != b && a in t[i].leases && b in t[i].leases
    requires t[i].leases[a].conn.Some? && t[i].leases[b].conn.Some? && t[i].leases[a].key == t[i].leases[b].key
    ensures GrantOf(t[i], a).Some? && GrantOf(t[i], b).Some? && GrantOf(t[i], a) != GrantOf(t[i], b)
    ensures GrantOf(t[i], a).value < GrantOf(t[i], b).value ==> !Alive(t[i], a)
    ensures !(Alive(t[i], a) && Alive(t[i], b))
  {
    RunInv(t, i);
    hide Run, Exclusive;
    var c, d := t[i].leases[a].conn.value, t[i].leases[b].conn.value;
    assert LeaseOk(t[i], a) && LeaseOk(t[i], b);
    assert ConnOk(t[i], c) && ConnOk(t[i], d);
    assert PairOk(t[i], c, d) && PairOk(t[i], d, c);
  }

  /** A dead session stays dead: its connection never leads to a lock again. */
  lemma {:induction false} DeathIsFinal(t: seq<State>, i: nat, j: nat, c: Id)
    requires Run(t) && i <= j < |t| && c in t[i].sessions && !t[i].sessions[c].alive
    ensures c in t[j].sessions && !t[j].sessions[c].alive
    decreases j
  {
    hide Next;
    if i < j {
      DeathIsFinal(t, i, j - 1, c);
      NextStaysDead(t[j - 1], t[j], c);
    }
  }

  lemma NextStaysDead(s: State, s': State, c: Id)
    requires Next(s, s') && c in s.sessions && !s.sessions[c].alive
    ensures c in s'.sessions && !s'.sessions[c].alive
  {
    hide Step;
    if s != s' {
      var e :| Step(s, e, s');
      StaysDead(s, e, s', c);
    }
  }

  lemma StaysDead(s: State, e: Event, s': State, c: Id)
    requires Step(s, e, s') && c in s.sessions && !s.sessions[c].alive
    ensures c in s'.sessions && !s'.sessions[c].alive
  {
    hide TakenElsewhere;
  }

  /** A second release of a lease, at any later time, does nothing. */
  lemma SecondReleaseDoesNothing(t: seq<State>, i: nat, j: nat, l: Id)
    requires Run(t) && i < j && j + 1 < |t| && Step(t[i], Release(l), t[i + 1]) && Step(t[j], Release(l), t[j + 1])
    ensures t[j + 1] == t[j]
  {
    ReleaseClears(t[i], l, t[i + 1]);
    hide Step;
    ReleasedStays(t, i + 1, j, l);
    SecondRelease(t[j], l, t[j + 1]);
  }

  lemma ReleaseClears(s: State, l: Id, s': State)
    requires Step(s, Release(l), s')
    ensures l in s'.leases && s'.leases[l].conn.None?
  {
  }

  lemma SecondRelease(s: State, l: Id, s': State)
    requires Step(s, Release(l), s') && s.leases[l].conn.None?
    ensures s' == s
  {
  }

  lemma {:induction false} ReleasedStays(t: seq<State>, i: nat, j: nat, l: Id)
    requires Run(t) && i <= j < |t| && l in t[i].leases && t[i].leases[l].conn.None?
    ensures l in t[j].leases && t[j].leases[l].conn.None?
    decreases j
  {
    hide Next, Inv;
    if i < j {
      ReleasedStays(t, i, j - 1, l);
      RunInv(t, j - 1);
      NextStaysReleased(t[j - 1], t[j], l);
    }
  }

  lemma NextStaysReleased(s: State, s': State, l: Id)
    requires Inv(s) && Next(s, s') && l in s.leases && s.leases[l].conn.None?
    ensures l in s'.leases && s'.leases[l].conn.None?
  {
    hide Step, Inv;
    if s != s' {
      var e :| Step(s, e, s');
      StaysReleased(s, e, s', l);
    }
  }

  lemma StaysReleased(s: State, e: Event, s': State, l: Id)
    requires Inv(s) && Step(s, e, s') && l in s.leases && s.leases[l].conn.None?
    ensures l in s'.leases && s'.leases[l].conn.None?
  {
    hide TakenElsewhere, ConnsOk, Exclusive, PairsOk;
    assert LeaseOk(s, l);
  }

  ghost predicate Leads(t: seq<State>) {
    forall i | 0 <= i < |t| - 1 :: Next(t[i], t[i + 1])
  }

  /** Two connections, and a grant whose session dies before the reply arrives. */
  lemma GrantLosesSession(c: Id, d: Id, k: Key) returns (t: seq<State>)
    requires c != d
    ensures |t| == 6 && t[0] == State(map[], map[], map[], 0, 0) && Leads(t)
    ensures t[5] == State(map[c := Locking(k, Granted(0)), d := Pooled], map[c := Session(false, multiset{}), d := Session(true, multiset{})], map[], 0, 1)
  {
    hide Step, Known, TakenElsewhere;
    var empty, held, dead := Session(true, multiset{}), Session(true, multiset{k}), Session(false, multiset{});
    var s0 := State(map[], map[], map[], 0, 0);
    var s1 := s0.(conns := s0.conns[c := Pooled], sessions := s0.sessions[c := empty]);
    Opens(s0, c, s1);
    var s2 := s1.(conns := s1.conns[d := Pooled], sessions := s1.sessions[d := empty]);
    Opens(s1, d, s2);
    var s3 := s2.(conns := s2.conns[c := Locking(k, NoAnswer)]);
    Asks(s2, c, k, s3);
    NobodyHolds(s3, c, k);
    var s4 := s3.(conns := s3.conns[c := Locking(k, Granted(s3.tickets))], sessions := s3.sessions[c := held], tickets := s3.tickets + 1);
    Grants(s3, c, k, s4);
    var s5 := s4.(sessions := s4.sessions[c := dead]);
    Dies(s4, c, s5);
    assert s5.conns == map[c := Locking(k, Granted(0)), d := Pooled];
    assert s5.sessions == map[c := dead, d := empty];
    t := [s0, s1, s2, s3, s4, s5];
    assert Next(s0, s1) && Next(s1, s2) && Next(s2, s3) && Next(s3, s4) && Next(s4, s5);
  }

  lemma Opens(s: State, c: Id, s': State)
    requires c !in s.conns && c !in s.sessions
    requires s' == s.(conns := s.conns[c := Pooled], sessions := s.sessions[c := Session(true, multiset{})])
    ensures Step(s, Open(c), s')
  {
  }

  lemma Asks(s: State, c: Id, k: Key, s': State)
    requires c in s.conns && c in s.sessions && s.conns[c].Pooled? && s' == s.(conns := s.conns[c := Locking(k, NoAnswer)])
    ensures Step(s, AskLock(c, k), s')
  {
  }

  lemma Dies(s: State, c: Id, s': State)
    requires c in s.sessions && s' == s.(sessions := s.sessions[c := Session(false, multiset{})])
    ensures Step(s, SessionDies(c), s')
  {
  }

  lemma NobodyHolds(s: State, c: Id, k: Key)
    requires forall d | d in s.sessions :: s.sessions[d].locks == multiset{}
    ensures !TakenElsewhere(s, c, k)
  {
  }

  /** A request for a key that nobody holds is granted. */
  lemma Grants(s: State, c: Id, k: Key, s': State)
    requires c in s.conns && c in s.sessions && s.conns[c] == Locking(k, NoAnswer) && s.sessions[c] == Session(true, multiset{}) && !TakenElsewhere(s, c, k)
    requires s' == s.(conns := s.conns[c := Locking(k, Granted(s.tickets))], sessions := s.sessions[c := Session(true, multiset{k})], tickets := s.tickets + 1)
    ensures Step(s, ServeLock(c), s')
  {
    assert multiset{} + multiset{k} == multiset{k};
  }

  /** The other connection gets the key and its reply first; only then does the delayed reply arrive. */
  lemma RepliesCross(c: Id, d: Id, k: Key, s5: State) returns (t: seq<State>)
    requires c != d
    requires s5 == State(map[c := Locking(k, Granted(0)), d := Pooled], map[c := Session(false, multiset{}), d := Session(true, multiset{})], map[], 0, 1)
    ensures |t| == 5 && t[0] == s5 && Leads(t)
    ensures t[4].leases == map[0 := Lease(k, Some(d)), 1 := Lease(k, Some(c))]
    ensures t[4].sessions == map[c := Session(false, multiset{}), d := Session(true, multiset{k})]
  {
    var dead, held := Session(false, multiset{}), Session(true, multiset{k});
    var s6 := State(map[c := Locking(k, Granted(0)), d := Locking(k, NoAnswer)], s5.sessions, map[], 0, 1);
    var s7 := State(map[c := Locking(k, Granted(0)), d := Locking(k, Granted(1))], map[c := dead, d := held], map[], 0, 2);
    var s8 := State(map[c := Locking(k, Granted(0)), d := Leased(0, k, 1)], s7.sessions, map[0 := Lease(k, Some(d))], 1, 2);
    var s9 := State(map[c := Leased(1, k, 0), d := Leased(0, k, 1)], s7.sessions, map[0 := Lease(k, Some(d)), 1 := Lease(k, Some(c))], 2, 2);
    t := [s5, s6, s7, s8, s9];
    assert Step(s5, AskLock(d, k), s6);
    Grants(s6, d, k, s7);
    assert Step(s7, LockReply(d), s8);
    assert Step(s8, LockReply(c), s9);
    hide Step;
    assert Next(s6, s7);
  }

  /**
   The order that counts is the server's: a reply that is delayed past the death of its session makes
   the client number the dead lease after the live one. Here lease 0 is alive and lease 1 is dead.
   */
  lemma ClientOrderMayDiffer(c: Id, d: Id, k: Key) returns (t: seq<State>)
    requires c != d
    ensures t != [] && Run(t)
    ensures var s := t[|t| - 1];
            && 0 in s.leases && 1 in s.leases && s.leases[0].key == s.leases[1].key == k && s.leases[0].conn.Some? && s.leases[1].conn.Some?
            && Alive(s, 0) && !Alive(s, 1)
  {
    hide Next;
    var t1 := GrantLosesSession(c, d, k);
    var t2 := RepliesCross(c, d, k, t1[5]);
    t := t1 + t2[1..];
    forall i | 0 <= i < |t| - 1
      ensures Next(t[i], t[i + 1])
    {
      if i < 5 {
        assert Next(t1[i], t1[i + 1]);
      } else {
        assert t[i] == t2[i - 5] && Next(t2[i - 5], t2[i - 4]);
      }
    }
  }
}
