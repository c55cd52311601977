/** The outbox table and one consumer, as they run: each statement is a method on the mutable table. */
module MailDelivery {
  import opened Wrappers
  import opened Arithmetic
  import opened SessionClock
  import opened MailOutbox

  /** The order in which rows are claimed. */
  predicate NoLater(a: Row, b: Row) {
    a.availableAt < b.availableAt || (a.availableAt == b.availableAt && a.createdAt <= b.createdAt)
  }

  class Outbox {
    var now: Instant
    var rows: map<Id, Row>

    constructor ()
      ensures now == 0 && rows == map[]
    {
      now, rows := 0, map[];
    }

    method EnqueueMail(m: Id, payload: Payload, expiresAt: Instant)
      requires m !in rows
      modifies this`rows
      ensures rows == old(rows)[m := Enqueued(now, expiresAt, payload)]
    {
      rows := rows[m := Row(Pending, 0, now, now, expiresAt, None, Some(payload))];
    }

    /** The expirable row that was created first among those of a set, if any. */
    method FirstExpirable(candidates: set<Id>) returns (first: Option<Id>)
      requires candidates <= rows.Keys
      ensures first.None? ==> forall m | m in candidates :: !CanExpire(rows[m], now)
      ensures first.Some? ==> first.value in candidates && CanExpire(rows[first.value], now)
      ensures first.Some? ==> forall m | m in candidates && CanExpire(rows[m], now) :: rows[first.value].createdAt <= rows[m].createdAt
    {
      first := None;
      var rest := candidates;
      while rest != {}
        invariant rest <= candidates
        invariant first.Some? ==> first.value in candidates && CanExpire(rows[first.value], now)
        invariant forall m | m in candidates && m !in rest && CanExpire(rows[m], now) :: first.Some? && rows[first.value].createdAt <= rows[m].createdAt
        decreases rest
      {
        var m :| m in rest;
        rest := rest - {m};
        var r := rows[m];
        if (r.status.Pending? || (r.status.Processing? && r.lease.Some? && r.lease.value.until <= now))
           && (r.expiresAt <= now || r.attempts >= MAX_ATTEMPTS) && (first.None? || r.createdAt < rows[first.value].createdAt) {
          first := Some(m);
        }
      }
    }

    /** Fails up to one hundred rows that can no longer be sent, the oldest first; fewer only when none is left. */
    method ExpireMail() returns (ghost batch: set<Id>)
      modifies this`rows
      ensures batch <= old(rows).Keys && |batch| <= EXPIRE_BATCH
      ensures forall m | m in batch :: CanExpire(old(rows)[m], now)
      ensures |batch| == EXPIRE_BATCH || forall m | m in rows :: !CanExpire(rows[m], now)
      ensures forall m, x | m in batch && x in old(rows) && x !in batch && CanExpire(old(rows)[x], now) :: old(rows)[m].createdAt <= old(rows)[x].createdAt
      ensures rows.Keys == old(rows).Keys
      ensures forall m | m in rows :: rows[m] == if m in batch then Emptied(old(rows)[m], Failed) else old(rows)[m]
    {
      batch := {};
      var count := 0;
      while count < EXPIRE_BATCH
        invariant count == |batch| <= EXPIRE_BATCH && batch <= old(rows).Keys
        invariant rows.Keys == old(rows).Keys
        invariant forall m | m in batch :: CanExpire(old(rows)[m], now)
        invariant forall m | m in rows :: rows[m] == if m in batch then Emptied(old(rows)[m], Failed) else old(rows)[m]
        invariant forall m, x | m in batch && x in old(rows) && x !in batch && CanExpire(old(rows)[x], now) ::
                    old(rows)[m].createdAt <= old(rows)[x].createdAt
      {
        var first := FirstExpirable(rows.Keys);
        if first.None? {
          return;
        }
        var m := first.value;
        assert m !in batch;
        rows := rows[m := rows[m].(status := Failed, lease := None, payload := None)];
        batch := batch + {m};
        count := count + 1;
      }
    }

    /** Claims the row that became available first, and of those the one created first, among the rows nobody is working on. */
    method ClaimMail(lease: Id) returns (claimed: Option<Id>)
      modifies this`rows
      ensures claimed.None? ==> rows == old(rows) && forall m | m in rows :: !CanClaim(rows[m], now)
      ensures claimed.Some? ==> && claimed.value in old(rows) && CanClaim(old(rows)[claimed.value], now)
                                && rows == old(rows)[claimed.value := Claimed(old(rows)[claimed.value], now, lease)]
      ensures claimed.Some? ==> forall m | m in old(rows) && CanClaim(old(rows)[m], now) :: NoLater(old(rows)[claimed.value], old(rows)[m])
    {
      claimed := None;
      var rest := rows.Keys;
      while rest != {}
        invariant rest <= rows.Keys
        invariant claimed.Some? ==> claimed.value in rows && CanClaim(rows[claimed.value], now)
        invariant forall m | m in rows && m !in rest && CanClaim(rows[m], now) :: claimed.Some? && NoLater(rows[claimed.value], rows[m])
        decreases rest
      {
        var m :| m in rest;
        rest := rest - {m};
        var r := rows[m];
        if ((r.status.Pending? && r.availableAt <= now) || (r.status.Processing? && r.lease.Some? && r.lease.value.until <= now))
           && r.expiresAt > now && r.attempts < MAX_ATTEMPTS {
          if claimed.None? || r.availableAt < rows[claimed.value].availableAt
             || (r.availableAt == rows[claimed.value].availableAt && r.createdAt < rows[claimed.value].createdAt) {
            claimed := Some(m);
          }
        }
      }
      if claimed.Some? {
        var r := rows[claimed.value];
        rows := rows[claimed.value := r.(status := Processing, attempts := r.attempts + 1, lease := Some(Lease(lease, now + LEASE)))];
      }
    }

    method CompleteMail(m: Id, lease: Id) returns (count: nat)
      modifies this`rows
      ensures count == if m in old(rows) && Holds(old(rows)[m], lease, now) then 1 else 0
      ensures rows == if count == 1 then old(rows)[m := Emptied(old(rows)[m], Sent)] else old(rows)
    {
      if m in rows && rows[m].status.Processing? && rows[m].lease.Some? && rows[m].lease.value.id == lease && rows[m].lease.value.until > now {
        rows := rows[m := rows[m].(status := Sent, lease := None, payload := None)];
        return 1;
      }
      return 0;
    }

    method RetryMail(m: Id, lease: Id, delay: nat) returns (count: nat)
      modifies this`rows
      ensures count == if m in old(rows) && Holds(old(rows)[m], lease, now) then 1 else 0
      ensures rows == if count == 1 then old(rows)[m := Retried(old(rows)[m], now, delay)] else old(rows)
      ensures count == 1 ==> rows[m].availableAt == now + delay * SECOND && rows[m].lease.None?
                             && (if old(rows)[m].attempts < 5 && now < old(rows)[m].expiresAt
                                 then rows[m].status.Pending? && rows[m].payload == old(rows)[m].payload else rows[m].status.Failed? && rows[m].payload.None?)
    {
      if m in rows && rows[m].status.Processing? && rows[m].lease.Some? && rows[m].lease.value.id == lease && rows[m].lease.value.until > now {
        var r := rows[m];
        var exhausted := r.attempts >= MAX_ATTEMPTS || r.expiresAt <= now;
        rows := rows[m := r.(status := if exhausted then Failed else Pending,
                             payload := if exhausted then None else r.payload,
                             availableAt := now + delay * SECOND,
                             lease := None)];
        return 1;
      }
      return 0;
    }
  }

  datatype Outcome = Nothing | Finished | LostLease

  class Service {
    const outbox: Outbox

    constructor (outbox: Outbox)
      ensures this.outbox == outbox
    {
      this.outbox := outbox;
    }

    /** Sends with a deadline; the sender needs `takes` and stops at the deadline, in which case it has failed. */
    method Deliver(row: Row, takes: Span, accepts: bool) returns (sent: bool)
      requires row.lease.Some? && row.lease.value.until >= FINISH_RESERVE
      modifies outbox`now
      ensures var deadline := Deadline(old(outbox.now), row.expiresAt, row.lease.value.until);
              if old(outbox.now) < deadline
              then outbox.now == Min(old(outbox.now) + takes, deadline) && (sent <==> accepts && old(outbox.now) + takes <= deadline)
              else outbox.now == old(outbox.now) && !sent
      ensures old(outbox.now) <= row.lease.value.until - FINISH_RESERVE ==> outbox.now + FINISH_RESERVE <= row.lease.value.until
    {
      var deadline := outbox.now + SEND_TIMEOUT;
      if row.expiresAt < deadline {
        deadline := row.expiresAt;
      }
      var limit := row.lease.value.until - FINISH_RESERVE;
      if limit < deadline {
        deadline := limit;
      }
      if deadline <= outbox.now {
        return false;
      }
      sent := accepts && outbox.now + takes <= deadline;
      outbox.now := if outbox.now + takes <= deadline then outbox.now + takes else deadline;
    }

    /** Under a lease that is no longer held nothing is written, and the loss is reported. */
    method FinishDelivery(m: Id, row: Row, lease: Id, sent: bool, jitter: nat) returns (outcome: Outcome)
      requires jitter < RETRY_JITTER
      modifies outbox`rows
      ensures outcome == if m in old(outbox.rows) && Holds(old(outbox.rows)[m], lease, outbox.now) then Finished else LostLease
      ensures outcome.LostLease? ==> outbox.rows == old(outbox.rows)
      ensures outcome.Finished? ==> outbox.rows == old(outbox.rows)[m := if sent then Emptied(old(outbox.rows)[m], Sent)
                                                                        else Retried(old(outbox.rows)[m], outbox.now, RetryDelay(row.attempts, jitter))]
      ensures outcome.Finished? && !sent && 1 <= row.attempts <= 5 ==>
                outbox.rows[m].availableAt == outbox.now + (15 * Power(row.attempts - 1) + jitter) * SECOND
    {
      var count;
      if sent {
        count := outbox.CompleteMail(m, lease);
      } else {
        var delay := RetryDelay(row.attempts, jitter);
        count := outbox.RetryMail(m, lease, delay);
      }
      return if count == 1 then Finished else LostLease;
    }

    /**
     One undisturbed round of a consumer. Finishing within the five reserved seconds can never lose
     the lease, however long the send took: an accepted mail is then sent, any other goes back or fails.
     */
    method ProcessOne(lease: Id, takes: Span, accepts: bool, lag: Span, jitter: nat) returns (outcome: Outcome, ghost mail: Id)
      requires jitter < RETRY_JITTER
      modifies outbox
      ensures outcome.Nothing? ==> outbox.now == old(outbox.now) && forall m | m in outbox.rows :: !CanClaim(outbox.rows[m], outbox.now)
      ensures !outcome.Nothing? && lag < FINISH_RESERVE ==> outcome.Finished?
      ensures !outcome.Nothing? ==> mail in old(outbox.rows) && mail in outbox.rows && CanClaim(old(outbox.rows)[mail], old(outbox.now))
      ensures outcome.Finished? ==>
                var kept := old(outbox.now) + takes <= Min(old(outbox.now) + SEND_TIMEOUT, old(outbox.rows)[mail].expiresAt);
                if accepts && kept then outbox.rows[mail].status.Sent?
                else if old(outbox.rows)[mail].attempts + 1 < MAX_ATTEMPTS && outbox.now < old(outbox.rows)[mail].expiresAt
                then && outbox.rows[mail].status.Pending? && outbox.rows[mail].payload == old(outbox.rows)[mail].payload
                     && outbox.rows[mail].availableAt == outbox.now + (15 * Power(old(outbox.rows)[mail].attempts) + jitter) * SECOND
                else outbox.rows[mail].status.Failed?
    {
      ghost var batch := outbox.ExpireMail();
      var claimed := outbox.ClaimMail(lease);
      if claimed.None? {
        mail := 0;
        return Nothing, mail;
      }
      mail := claimed.value;
      assert mail !in batch;
      var row := outbox.rows[claimed.value];
      var sent := Deliver(row, takes, accepts);
      outbox.now := outbox.now + lag;
      outcome := FinishDelivery(claimed.value, row, lease, sent, jitter);
    }
  }
}
