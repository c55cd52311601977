/** What each statement leaves in the outbox, row by row, and how long a mail waits after a failed attempt. */
module MailOutcomes {
  import opened Wrappers
  import opened Arithmetic
  import opened SessionClock
  import opened MailOutbox

  /** The row of the mail is still processed under the lease that the consumer holds. */
  predicate StillLeased(s: Sys, c: Id) {
    && c in s.consumers && s.consumers[c].Done? && s.consumers[c].mail in s.rows
    && var r := s.rows[s.consumers[c].mail];
    && r.status.Processing? && r.lease.Some? && r.lease.value.id == s.consumers[c].lease && s.now < r.lease.value.until
  }

  /** A mail enters under a new identifier and can be claimed at once. */
  lemma EnqueueOutcome(s: Sys, m: Id, payload: Payload, expiresAt: Instant, s': Sys)
    requires Step(s, Enqueue(m, payload, expiresAt), s')
    ensures m !in s.rows && s'.rows == s.rows[m := Row(Pending, 0, s.now, s.now, expiresAt, None, Some(payload))] && s'.consumers == s.consumers
    ensures s.now < expiresAt <==> exists s2 :: Step(s', ClaimLost(m), s2)
  {
    ClaimablePending(s', m);
  }

  /** A claim takes a row that is due or whose lease has run out, for one minute under a lease that no other row carries. */
  lemma ClaimOutcome(s: Sys, e: Event, s': Sys)
    requires Inv(s) && Step(s, e, s') && (e.Claim? || e.ClaimLost?)
    ensures var m, lease := e.mail, s.nextLease;
            && m in s.rows && s.rows[m].attempts < 5 && s.now < s.rows[m].expiresAt
            && (|| (s.rows[m].status.Pending? && s.rows[m].availableAt <= s.now)
                || (s.rows[m].status.Processing? && s.rows[m].lease.Some? && s.rows[m].lease.value.until <= s.now))
            && s'.rows == s.rows[m := s.rows[m].(status := Processing, attempts := s.rows[m].attempts + 1,
                                                 lease := Some(Lease(lease, s.now + 60 * SECOND)))]
            && (forall w | w in s.rows && s.rows[w].lease.Some? :: s.rows[w].lease.value.id != lease)
            && (e.Claim? ==> s'.consumers == s.consumers[e.consumer := Holding(m, lease, s'.rows[m])])
  {
    hide ConsumersOk, WindowsOk, CompletedOk;
    assert forall w | w in s.rows :: RowInv(s, w);
  }

  /** Only a row that can never be sent again is expired: it is due for a claim no more, and its time or its attempts are used up. */
  lemma ExpireOutcome(s: Sys, m: Id, s': Sys)
    requires Step(s, Expire(m), s')
    ensures m in s.rows && (s.rows[m].expiresAt <= s.now || s.rows[m].attempts >= 5)
    ensures s.rows[m].status.Pending? || (s.rows[m].status.Processing? && s.rows[m].lease.Some? && s.rows[m].lease.value.until <= s.now)
    ensures s'.rows == s.rows[m := s.rows[m].(status := Failed, lease := None, payload := None)] && s'.consumers == s.consumers
  {
  }

  /** A send ends by the earliest of three instants: ten seconds from now, the mail's expiry, five seconds before the end of the lease. */
  lemma SendOutcome(s: Sys, c: Id, s': Sys)
    requires Step(s, StartSend(c), s')
    ensures c in s.consumers && s.consumers[c].Holding? && s.consumers[c].row.lease.Some? && c in s'.consumers && s'.consumers[c].Sending?
    ensures var k, d := s.consumers[c], s'.consumers[c].deadline;
            && s.now < d <= s.now + 10 * SECOND && d <= k.row.expiresAt && d + 5 * SECOND <= k.row.lease.value.until
            && (d == s.now + 10 * SECOND || d == k.row.expiresAt || d + 5 * SECOND == k.row.lease.value.until)
            && s'.consumers == s.consumers[c := Sending(k.mail, k.lease, k.row, s.now, d)]
    ensures s'.rows == s.rows
  {
  }

  /**
   Finishing, under a lease that is still held: a sent mail is done and emptied; a failed one waits 15
   seconds doubled with each attempt, plus the jitter, while attempts and time are left, and fails otherwise.
   Under any other lease no row changes.
   */
  lemma FinishOutcome(s: Sys, c: Id, jitter: nat, s': Sys)
    requires Inv(s) && Step(s, Finish(c, jitter), s')
    ensures c in s.consumers && s.consumers[c].Done? && s.consumers[c].mail in s.rows && jitter < 10
    ensures var k, m := s.consumers[c], s.consumers[c].mail;
            var r := s.rows[m];
            if !StillLeased(s, c) then s'.rows == s.rows
            else if k.ok then s'.rows == s.rows[m := r.(status := Sent, lease := None, payload := None)]
            else 1 <= r.attempts && var due := s.now + (15 * Power(r.attempts - 1) + jitter) * SECOND;
                 if r.attempts < 5 && s.now < r.expiresAt
                 then s'.rows == s.rows[m := r.(status := Pending, lease := None, availableAt := due)]
                 else s'.rows == s.rows[m := r.(status := Failed, lease := None, payload := None, availableAt := due)]
  {
    hide RowsOk, WindowsOk, CompletedOk;
    assert ConsumerOk(s, s.consumers[c]);
    if StillLeased(s, c) {
      AttemptsCounted(s, s.consumers[c].mail);
    }
  }

  lemma AttemptsCounted(s: Sys, m: Id)
    requires Inv(s) && m in s.rows && s.rows[m].status.Processing?
    ensures 1 <= s.rows[m].attempts <= 5
  {
    hide ConsumersOk, WindowsOk, CompletedOk;
    assert RowInv(s, m);
  }

  // ---- the wait between two attempts

  /** Until `due` the row is out of every consumer's reach. */
  predicate Waits(s: Sys, m: Id, due: Instant) {
    m in s.rows && (due <= s.now || Terminal(s.rows[m]) || (s.rows[m].status.Pending? && s.rows[m].availableAt >= due))
  }

  lemma StepWaits(s: Sys, e: Event, s': Sys, m: Id, due: Instant)
    requires Step(s, e, s') && Waits(s, m, due)
    ensures Waits(s', m, due)
  {
    hide RetryDelay, Deadline;
    StepTime(s, e, s');
  }

  lemma {:induction false} RunWaits(t: seq<Sys>, i: nat, j: nat, m: Id, due: Instant)
    requires Run(t) && i <= j < |t| && Waits(t[i], m, due)
    ensures Waits(t[j], m, due)
    decreases j
  {
    hide Step, Init, Waits;
    if i < j {
      RunWaits(t, i, j - 1, m, due);
      assert Next(t[j - 1], t[j]);
      if t[j - 1] != t[j] {
        var e :| Step(t[j - 1], e, t[j]);
        StepWaits(t[j - 1], e, t[j], m, due);
      }
    }
  }

  /**
   Over any run, no consumer claims a mail whose attempt a failed before 15 times two to the a - 1
   seconds, and the jitter, have passed. Until somebody touches the row, it can be claimed exactly
   from that instant on until the mail expires.
   */
  lemma RetryWaits(t: seq<Sys>, i: nat, j: nat, c: Id, jitter: nat)
    requires Run(t) && i < j < |t| && Step(t[i], Finish(c, jitter), t[i + 1]) && StillLeased(t[i], c) && !t[i].consumers[c].ok
    ensures var m := t[i].consumers[c].mail;
            && m in t[i + 1].rows && m in t[j].rows && 1 <= t[i].rows[m].attempts <= 5
            && var due := t[i].now + (15 * Power(t[i].rows[m].attempts - 1) + jitter) * SECOND;
            && (forall e, s' | Step(t[j], e, s') && (e.Claim? || e.ClaimLost?) && e.mail == m :: due <= t[j].now && t[i].rows[m].attempts < 5)
            && (t[j].rows[m] == t[i + 1].rows[m] && t[i].rows[m].attempts < 5 && t[i].now < t[i].rows[m].expiresAt ==>
                  ((exists s' :: Step(t[j], ClaimLost(m), s')) <==> due <= t[j].now < t[i].rows[m].expiresAt))
  {
    RunInv(t, i);
    FinishOutcome(t[i], c, jitter, t[i + 1]);
    var m := t[i].consumers[c].mail;
    AttemptsCounted(t[i], m);
    var due := t[i].now + (15 * Power(t[i].rows[m].attempts - 1) + jitter) * SECOND;
    RunWaits(t, i + 1, j, m, due);
    RunInv(t, i + 1);
    RunEvolves(t, i + 1, j);
    hide Run, Inv;
    forall e, s' | Step(t[j], e, s') && (e.Claim? || e.ClaimLost?) && e.mail == m
      ensures due <= t[j].now && t[i].rows[m].attempts < 5
    {
      ClaimIsDue(t[j], e, s', m, due);
      assert RowEvolves(t[i + 1].rows[m], t[j].rows[m]);
    }
    if t[j].rows[m] == t[i + 1].rows[m] && t[i].rows[m].attempts < 5 && t[i].now < t[i].rows[m].expiresAt {
      ClaimablePending(t[j], m);
    }
  }

  lemma ClaimIsDue(s: Sys, e: Event, s': Sys, m: Id, due: Instant)
    requires Step(s, e, s') && (e.Claim? || e.ClaimLost?) && e.mail == m && Waits(s, m, due)
    ensures due <= s.now && s.rows[m].attempts < 5
  {
  }

  lemma ClaimablePending(s: Sys, m: Id)
    requires m in s.rows && s.rows[m].status.Pending? && s.rows[m].attempts < 5
    ensures (exists s' :: Step(s, ClaimLost(m), s')) <==> s.rows[m].availableAt <= s.now < s.rows[m].expiresAt
  {
    if s.rows[m].availableAt <= s.now < s.rows[m].expiresAt {
      var s' := SetRow(s, m, Claimed(s.rows[m], s.now, s.nextLease)).(nextLease := s.nextLease + 1);
      assert Step(s, ClaimLost(m), s');
    }
  }
}
