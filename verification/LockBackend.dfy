/** The lock backend and its leases as they run, on one connection at a time. */
module LockBackend {
  import opened Wrappers

  type Id = nat
  type Key = nat

  datatype Error = Unavailable | LockLost | ReleaseFailed

  /** Whether the reply to a request arrives, and if it does not, whether the server had carried it out. */
  datatype Wire = Arrives | Breaks(served: bool)

  datatype Unit = Unit

  class Backend {
    /** The connections in the pool. */
    var idle: set<Id>
    /** The server's live sessions and the locks they hold. */
    var locks: map<Id, multiset<Key>>

    /** No connection in the pool holds a lock. */
    ghost predicate Clean()
      reads this
    {
      forall c | c in idle && c in locks :: locks[c] == multiset{}
    }

    constructor (idle: set<Id>)
      ensures Clean() && this.idle == idle && locks == map c | c in idle :: multiset{}
    {
      this.idle := idle;
      locks := map c | c in idle :: multiset{};
    }

    /** pg_try_advisory_lock on a session, or an error when the session is gone. */
    method ServeLock(c: Id, key: Key) returns (answer: Result<bool, Error>)
      modifies this`locks
      ensures answer.Ok? <==> c in old(locks)
      ensures answer.Ok? ==> (answer.value <==> forall d | d in old(locks) && d != c :: key !in old(locks)[d])
      ensures locks == if answer == Ok(true) then old(locks)[c := old(locks)[c] + multiset{key}] else old(locks)
    {
      if c !in locks {
        return Err(Unavailable);
      }
      if d :| d in locks && d != c && key in locks[d] {
        return Ok(false);
      }
      locks := locks[c := locks[c] + multiset{key}];
      return Ok(true);
    }

    method ServeUnlock(c: Id, key: Key) returns (answer: Result<bool, Error>)
      modifies this`locks
      ensures answer.Ok? <==> c in old(locks)
      ensures answer.Ok? ==> (answer.value <==> key in old(locks)[c])
      ensures locks == if answer == Ok(true) then old(locks)[c := old(locks)[c] - multiset{key}] else old(locks)
    {
      if c !in locks {
        return Err(Unavailable);
      }
      if key !in locks[c] {
        return Ok(false);
      }
      locks := locks[c := locks[c] - multiset{key}];
      return Ok(true);
    }

    /** The lock request got through to the session of c, and nobody else holds the key. */
    predicate Grantable(c: Id, key: Key)
      reads this
    {
      c in locks && forall d | d in locks && d != c :: key !in locks[d]
    }

    /**
     The pool may fail to give a connection; then nothing happened. A busy key returns the connection;
     any error on it destroys it, because the server may already have granted the lock.
     */
    method TryAcquire(taken: Option<Id>, key: Key, wire: Wire) returns (result: Result<Option<Lease>, Error>)
      requires Clean() && (taken.Some? ==> taken.value in idle)
      modifies this
      ensures Clean()
      ensures taken.None? ==> result == Err(Unavailable) && idle == old(idle) && locks == old(locks)
      ensures taken.Some? ==> (result.Ok? <==> wire.Arrives? && taken.value in old(locks))
      ensures taken.Some? && result.Ok? ==> (result.value.Some? <==> old(Grantable(taken.value, key)))
      ensures result.Ok? && result.value.Some? ==> && fresh(result.value.value) && result.value.value.Valid() && result.value.value.backend == this
                                                   && result.value.value.key == key && result.value.value.conn == taken && taken.Some?
                                                   && locks == old(locks)[taken.value := multiset{key}] && idle == old(idle) - {taken.value}
                                                   && Grantable(taken.value, key)
      ensures result == Ok(None) ==> idle == old(idle) && locks == old(locks)
      ensures result.Err? && taken.Some? ==>
                && result.error.Unavailable? && idle == old(idle) - {taken.value}
                && locks == if (wire.Arrives? || wire.served) && old(Grantable(taken.value, key)) then old(locks)[taken.value := multiset{key}] else old(locks)
    {
      if taken.None? {
        return Err(Unavailable);
      }
      var c := taken.value;
      idle := idle - {c};
      assert multiset{} + multiset{key} == multiset{key};
      var answer;
      if wire.Arrives? || wire.served {
        answer := ServeLock(c, key);
      }
      if wire.Breaks? || answer.Err? {
        return Err(Unavailable);
      }
      if !answer.value {
        idle := idle + {c};
        return Ok(None);
      }
      var lease := new Lease(this, key, c);
      return Ok(Some(lease));
    }
  }

  /** What the watch loop sees next: its context is done, or a tick, at which a probe may fail. */
  datatype Signal = Done | Tick(cancelled: bool, answers: bool)

  datatype WatchResult = Stopped | Lost | StillWatching

  class Lease {
    const backend: Backend
    const key: Key
    var conn: Option<Id>

    /** The connection of a lease is not in the pool; while its session lives, the session holds just this key. */
    ghost predicate Valid()
      reads this, backend
    {
      conn.Some? ==> conn.value !in backend.idle && (conn.value in backend.locks ==> backend.locks[conn.value] == multiset{key})
    }

    constructor (backend: Backend, key: Key, c: Id)
      ensures this.backend == backend && this.key == key && conn == Some(c)
    {
      this.backend, this.key := backend, key;
      conn := Some(c);
    }

    /**
     The connection goes back to the pool only when the server confirmed the unlock; in every other
     case it is destroyed. A lease that has no connection any more is left alone.
     */
    method Release(wire: Wire) returns (result: Result<Unit, Error>)
      requires Valid() && backend.Clean()
      modifies this`conn, backend
      ensures Valid() && backend.Clean() && conn.None?
      ensures old(conn).None? ==> result.Ok? && backend.idle == old(backend.idle) && backend.locks == old(backend.locks)
      ensures old(conn).Some? ==> (result.Ok? <==> wire.Arrives? && old(conn).value in old(backend.locks))
      ensures old(conn).Some? ==> backend.idle == old(backend.idle) + if result.Ok? then {old(conn).value} else {}
      ensures backend.locks == if old(conn).Some? && old(conn).value in old(backend.locks) && (wire.Arrives? || wire.served)
                               then old(backend.locks)[old(conn).value := multiset{}] else old(backend.locks)
      ensures result.Err? ==> result.error.ReleaseFailed?
    {
      if conn.None? {
        return Ok(Unit);
      }
      var c := conn.value;
      conn := None;
      var answer;
      if wire.Arrives? || wire.served {
        answer := backend.ServeUnlock(c, key);
      }
      if wire.Arrives? && answer.Ok? && answer.value {
        assert multiset{key} - multiset{key} == multiset{};
        backend.idle := backend.idle + {c};
        return Ok(Unit);
      }
      return Err(ReleaseFailed);
    }

    /** Watches until its context is done or a probe fails; a cancellation seen at a tick wins over the probe. */
    method Watch(signals: seq<Signal>) returns (result: WatchResult)
      ensures result.Lost? <==> exists i | 0 <= i < |signals| :: FailsAt(signals, i)
      ensures result.Stopped? <==> exists i | 0 <= i < |signals| :: StopsAt(signals, i)
    {
      for i := 0 to |signals|
        invariant forall k | 0 <= k < i :: Quiet(signals[k])
      {
        match signals[i] {
          case Done =>
            assert StopsAt(signals, i);
            return Stopped;
          case Tick(cancelled, answers) =>
            if cancelled {
              assert StopsAt(signals, i);
              return Stopped;
            }
            if !answers {
              assert FailsAt(signals, i);
              return Lost;
            }
        }
      }
      return StillWatching;
    }
  }

  predicate Quiet(s: Signal) {
    s.Tick? && !s.cancelled && s.answers
  }

  /** The first signal that is not quiet is a failed probe. */
  predicate FailsAt(signals: seq<Signal>, i: nat)
    requires i < |signals|
  {
    signals[i].Tick? && !signals[i].cancelled && !signals[i].answers && forall k | 0 <= k < i :: Quiet(signals[k])
  }

  predicate StopsAt(signals: seq<Signal>, i: nat)
    requires i < |signals|
  {
    (signals[i].Done? || signals[i].cancelled) && forall k | 0 <= k < i :: Quiet(signals[k])
  }
}
