/**
 The mail outbox: rows that several consumers claim under a lease, send outside any transaction,
 and then complete or retry by compare-and-set on the lease. Consumers may crash at any point and
 a claim may be lost on its way back. The only assumption about a sender is that it returns by the
 deadline it was given.
 */
module MailOutbox {
  import opened Wrappers
  import opened Arithmetic
  import opened SessionClock

  type Id = nat
  type Payload = nat

  const MAX_ATTEMPTS: nat := 5
  const LEASE: Span := 60 * SECOND
  const SEND_TIMEOUT: Span := 10 * SECOND
  const FINISH_RESERVE: Span := 5 * SECOND
  const EXPIRE_BATCH: nat := 100
  const RETRY_BASE: nat := 15
  const RETRY_JITTER: nat := 10

  datatype Status = Pending | Processing | Sent | Failed

  datatype Lease = Lease(id: Id, until: Instant)

  /** `payload` stands for recipient, subject and body; they are emptied together. */
  datatype Row = Row(status: Status, attempts: nat, availableAt: Instant, createdAt: Instant, expiresAt: Instant, lease: Option<Lease>, payload: Option<Payload>)

  predicate Terminal(r: Row) {
    r.status.Sent? || r.status.Failed?
  }

  // ---- the statements, row by row

  function Enqueued(now: Instant, expiresAt: Instant, payload: Payload): Row {
    Row(Pending, 0, now, now, expiresAt, None, Some(payload))
  }

  /** Nobody is working on the row: it is due, or its lease has run out. */
  predicate Free(r: Row, now: Instant) {
    (r.status.Pending? && r.availableAt <= now) || (r.status.Processing? && r.lease.Some? && r.lease.value.until <= now)
  }

  predicate CanClaim(r: Row, now: Instant) {
    Free(r, now) && r.expiresAt > now && r.attempts < MAX_ATTEMPTS
  }

  function Claimed(r: Row, now: Instant, lease: Id): Row {
    r.(status := Processing, attempts := r.attempts + 1, lease := Some(Lease(lease, now + LEASE)))
  }

  predicate CanExpire(r: Row, now: Instant) {
    && (r.status.Pending? || (r.status.Processing? && r.lease.Some? && r.lease.value.until <= now))
    && (r.expiresAt <= now || r.attempts >= MAX_ATTEMPTS)
  }

  function Emptied(r: Row, status: Status): Row {
    r.(status := status, lease := None, payload := None)
  }

  /** The condition of both finishing statements. */
  predicate Holds(r: Row, lease: Id, now: Instant) {
    r.status.Processing? && r.lease.Some? && r.lease.value.id == lease && r.lease.value.until > now
  }

  function Retried(r: Row, now: Instant, delay: nat): Row {
    var exhausted := r.attempts >= MAX_ATTEMPTS || r.expiresAt <= now;
    (if exhausted then Emptied(r, Failed) else r.(status := Pending, lease := None)).(availableAt := now + delay * SECOND)
  }

  /** Seconds until the next attempt, by the number of the attempt that failed. */
  function RetryDelay(attempt: int, jitter: nat): nat
    requires jitter < RETRY_JITTER
  {
    var a := if attempt < 1 then 1 else if attempt > MAX_ATTEMPTS then MAX_ATTEMPTS else attempt;
    RETRY_BASE * Power(a - 1) + jitter
  }

  /** Each attempt waits longer than any earlier one, whatever the jitter; no wait is under 15 or over 249 seconds. */
  lemma RetryDelaysGrow(a: int, b: int, i: nat, j: nat)
    requires i < RETRY_JITTER && j < RETRY_JITTER
    ensures 15 <= RetryDelay(a, i) <= 249
    ensures a < 1 ==> RetryDelay(a, i) == RetryDelay(1, i)
    ensures a > MAX_ATTEMPTS ==> RetryDelay(a, i) == RetryDelay(MAX_ATTEMPTS, i)
    ensures 1 <= a < b <= MAX_ATTEMPTS ==> RetryDelay(a, i) < RetryDelay(b, j)
    ensures 1 <= a < MAX_ATTEMPTS ==> RetryDelay(a + 1, i) - i == 2 * (RetryDelay(a, j) - j)
  {
    assert Power(0) == 1 && Power(1) == 2 && Power(2) == 4 && Power(3) == 8 && Power(4) == 16;
  }

  /** A send may last ten seconds, but never past the mail's own expiry nor into the last five seconds of the lease. */
  function Deadline(now: Instant, expiresAt: Instant, until: Instant): Instant
    requires until >= FINISH_RESERVE
  {
    Min(Min(now + SEND_TIMEOUT, expiresAt), until - FINISH_RESERVE)
  }

  // ---- the system

  /** One consumer's own view: the row as its claim returned it, and how far it has got. */
  datatype Consumer =
    | Idle
    | Holding(mail: Id, lease: Id, row: Row)
    | Sending(mail: Id, lease: Id, row: Row, started: Instant, deadline: Instant)
    | Done(mail: Id, lease: Id, row: Row, ok: bool)

  /** One past stay inside `send`. */
  datatype Window = Window(mail: Id, lease: Id, until: Instant, from: Instant, to: Instant, ok: bool)

  /** `enqueued`, `changes`, `windows` and `completedBy` record what happened; no statement reads them. */
  datatype Sys = Sys(
    now: Instant,
    nextLease: Id,
    rows: map<Id, Row>,
    consumers: map<Id, Consumer>,
    enqueued: map<Id, Payload>,
    changes: map<Id, nat>,
    windows: seq<Window>,
    completedBy: map<Id, Id>)

  datatype Event =
    | Tick(now: Instant)
    | Enqueue(mail: Id, payload: Payload, expiresAt: Instant)
    | Expire(mail: Id)
    | Claim(consumer: Id, mail: Id)
    | ClaimLost(mail: Id)
    | StartSend(consumer: Id)
    | SkipSend(consumer: Id)
    | EndSend(consumer: Id, ok: bool)
    | Finish(consumer: Id, jitter: nat)
    | Crash(consumer: Id)

  function SetRow(s: Sys, m: Id, r: Row): Sys {
    s.(rows := s.rows[m := r], changes := s.changes[m := (if m in s.changes then s.changes[m] else 0) + 1])
  }

  function SetConsumer(s: Sys, c: Id, k: Consumer): Sys {
    s.(consumers := s.consumers[c := k])
  }

  function LogWindow(s: Sys, k: Consumer, ok: bool): Sys
    requires k.Sending? && k.row.lease.Some?
  {
    s.(windows := s.windows + [Window(k.mail, k.lease, k.row.lease.value.until, k.started, s.now, ok)])
  }

  /** The finishing statement: it changes the row exactly when the lease is still held. */
  function Finished(s: Sys, m: Id, lease: Id, attempts: nat, ok: bool, jitter: nat): Sys
    requires m in s.rows && jitter < RETRY_JITTER
  {
    if !Holds(s.rows[m], lease, s.now) then s
    else if ok then SetRow(s, m, Emptied(s.rows[m], Sent)).(completedBy := s.completedBy[m := lease])
    else SetRow(s, m, Retried(s.rows[m], s.now, RetryDelay(attempts, jitter)))
  }

  predicate Step(s: Sys, e: Event, s': Sys) {
    match e
    case Tick(now) =>
      && s.now <= now && (forall c | c in s.consumers && s.consumers[c].Sending? :: now <= s.consumers[c].deadline)
      && s' == s.(now := now)
    case Enqueue(m, payload, expiresAt) =>
      && m !in s.rows
      && s' == s.(rows := s.rows[m := Enqueued(s.now, expiresAt, payload)], enqueued := s.enqueued[m := payload], changes := s.changes[m := 0])
    case Expire(m) => m in s.rows && CanExpire(s.rows[m], s.now) && s' == SetRow(s, m, Emptied(s.rows[m], Failed))
    case Claim(c, m) =>
      && c in s.consumers && s.consumers[c].Idle? && m in s.rows && CanClaim(s.rows[m], s.now)
      && s' == SetConsumer(SetRow(s, m, Claimed(s.rows[m], s.now, s.nextLease)), c, Holding(m, s.nextLease, Claimed(s.rows[m], s.now, s.nextLease)))
               .(nextLease := s.nextLease + 1)
    case ClaimLost(m) =>
      && m in s.rows && CanClaim(s.rows[m], s.now)
      && s' == SetRow(s, m, Claimed(s.rows[m], s.now, s.nextLease)).(nextLease := s.nextLease + 1)
    case StartSend(c) =>
      && c in s.consumers && s.consumers[c].Holding? && s.consumers[c].row.lease.Some? && s.consumers[c].row.lease.value.until >= FINISH_RESERVE
      && var k := s.consumers[c];
      && var deadline := Deadline(s.now, k.row.expiresAt, k.row.lease.value.until);
      && s.now < deadline && s' == SetConsumer(s, c, Sending(k.mail, k.lease, k.row, s.now, deadline))
    case SkipSend(c) =>
      && c in s.consumers && s.consumers[c].Holding?
      && s' == SetConsumer(s, c, Done(s.consumers[c].mail, s.consumers[c].lease, s.consumers[c].row, false))
    case EndSend(c, ok) =>
      && c in s.consumers && s.consumers[c].Sending? && s.consumers[c].row.lease.Some?
      && s' == SetConsumer(LogWindow(s, s.consumers[c], ok), c, Done(s.consumers[c].mail, s.consumers[c].lease, s.consumers[c].row, ok))
    case Finish(c, jitter) =>
      && c in s.consumers && s.consumers[c].Done? && s.consumers[c].mail in s.rows && jitter < RETRY_JITTER
      && var k := s.consumers[c];
      && s' == SetConsumer(Finished(s, k.mail, k.lease, k.row.attempts, k.ok, jitter), c, Idle)
    case Crash(c) =>
      && c in s.consumers
      && var k := s.consumers[c];
      && (k.Sending? ==> k.row.lease.Some?)
      && s' == SetConsumer(if k.Sending? then LogWindow(s, k, false) else s, c, Idle)
  }

  ghost predicate Next(s: Sys, s': Sys) {
    s == s' || exists e :: Step(s, e, s')
  }

  /** Any number of idle consumers and an empty outbox. */
  ghost predicate Init(s: Sys) {
    && s.rows == map[] && s.enqueued == map[] && s.changes == map[] && s.windows == [] && s.completedBy == map[]
    && forall c | c in s.consumers :: s.consumers[c].Idle?
  }

  ghost predicate Run(t: seq<Sys>) {
    t != [] && Init(t[0]) && forall i | 0 <= i < |t| - 1 :: Next(t[i], t[i + 1])
  }

  // ---- the invariant

  /** What is left of a row's life: every change of the row lowers it. */
  function Remaining(r: Row): int {
    match r.status
    case Pending => 10 - 2 * r.attempts
    case Processing => 11 - 2 * r.attempts
    case _ => 0
  }

  predicate RowOk(r: Row) {
    && (r.lease.Some? <==> r.status.Processing?)
    && (r.payload.Some? <==> !Terminal(r))
    && (r.status.Pending? ==> r.attempts < MAX_ATTEMPTS)
    && (r.status.Processing? ==> 1 <= r.attempts <= MAX_ATTEMPTS && r.lease.value.until >= LEASE)
    && r.attempts <= MAX_ATTEMPTS
  }

  predicate RowInv(s: Sys, m: Id)
    requires m in s.rows
  {
    && RowOk(s.rows[m])
    && m in s.enqueued && (s.rows[m].payload.Some? ==> s.rows[m].payload.value == s.enqueued[m])
    && m in s.changes && s.changes[m] + Remaining(s.rows[m]) <= 10
    && (s.rows[m].lease.Some? ==> s.rows[m].lease.value.id < s.nextLease)
  }

  ghost predicate RowsOk(s: Sys) {
    && (forall m | m in s.rows :: RowInv(s, m))
    && (forall m | m in s.enqueued :: m in s.rows)
  }

  predicate Busy(k: Consumer) {
    !k.Idle?
  }

  /** The consumer's lease is on the row, or it has run out. */
  predicate ConsumerOk(s: Sys, k: Consumer) {
    Busy(k) ==>
      && k.mail in s.rows && k.lease < s.nextLease
      && k.row.status.Processing? && k.row.lease.Some? && k.row.lease.value.id == k.lease && k.row.lease.value.until >= LEASE
      && (s.rows[k.mail] == k.row || s.now >= k.row.lease.value.until)
      && (s.rows[k.mail].lease.Some? && s.rows[k.mail].lease.value.id == k.lease ==> s.rows[k.mail] == k.row)
      && k.row.lease.value.until <= s.now + LEASE
      && (k.Sending? ==>
            && k.row.lease.value.until <= k.started + LEASE && k.started <= s.now <= k.deadline
            && k.deadline + FINISH_RESERVE <= k.row.lease.value.until && k.deadline <= k.row.expiresAt && k.deadline <= k.started + SEND_TIMEOUT)
      && (k.Done? && k.ok ==> exists i | 0 <= i < |s.windows| :: Delivered(s.windows[i], k.mail, k.lease))
  }

  predicate Delivered(w: Window, m: Id, lease: Id) {
    w.mail == m && w.lease == lease && w.ok
  }

  ghost predicate ConsumersOk(s: Sys) {
    && (forall c | c in s.consumers :: ConsumerOk(s, s.consumers[c]))
    && (forall c, d | c in s.consumers && d in s.consumers && c != d && Busy(s.consumers[c]) && Busy(s.consumers[d]) ::
          s.consumers[c].lease != s.consumers[d].lease)
  }

  /** A past window is well inside its lease, and the row cannot be sent again until the reserve has passed. */
  predicate WindowOk(s: Sys, w: Window) {
    && w.mail in s.rows && w.lease < s.nextLease
    && w.from <= w.to <= s.now && w.to + FINISH_RESERVE <= w.until
    && var r := s.rows[w.mail];
    && (r.status.Pending? ==> r.availableAt >= w.to + FINISH_RESERVE)
    && (r.status.Processing? && r.lease.Some? ==>
          if r.lease.value.id == w.lease then r.lease.value.until == w.until else r.lease.value.until >= w.to + FINISH_RESERVE + LEASE)
  }

  ghost predicate WindowsOk(s: Sys) {
    && (forall i | 0 <= i < |s.windows| :: WindowOk(s, s.windows[i]))
    && (forall i, c | 0 <= i < |s.windows| && c in s.consumers && (s.consumers[c].Holding? || s.consumers[c].Sending?) ::
          s.windows[i].lease != s.consumers[c].lease)
    && (forall i, j | 0 <= i < j < |s.windows| && s.windows[i].mail == s.windows[j].mail ::
          s.windows[j].from >= s.windows[i].to + FINISH_RESERVE)
  }

  ghost predicate CompletedOk(s: Sys) {
    && (forall m | m in s.rows :: s.rows[m].status.Sent? <==> m in s.completedBy)
    && (forall m | m in s.completedBy :: m in s.rows)
    && (forall m | m in s.completedBy :: exists i | 0 <= i < |s.windows| :: Delivered(s.windows[i], m, s.completedBy[m]))
  }

  ghost predicate Inv(s: Sys) {
    RowsOk(s) && ConsumersOk(s) && WindowsOk(s) && CompletedOk(s)
  }

  lemma InitInv(s: Sys)
    requires Init(s)
    ensures Inv(s)
  {
  }

  /** A row changes by one of four statements: claim, expiry, completion, retry. */
  predicate RowChange(now: Instant, newest: Id, r: Row, r': Row, delay: nat) {
    || (CanClaim(r, now) && r' == Claimed(r, now, newest))
    || (CanExpire(r, now) && r' == Emptied(r, Failed))
    || (r.status.Processing? && r.lease.Some? && r.lease.value.until > now && (r' == Emptied(r, Sent) || r' == Retried(r, now, delay)))
  }

  lemma StepRowShape(s: Sys, e: Event, s': Sys, m: Id) returns (delay: nat)
    requires Step(s, e, s') && m in s'.rows
    ensures m !in s.rows ==> && e.Enqueue? && s'.rows[m] == Enqueued(s.now, e.expiresAt, e.payload)
                             && m in s'.enqueued && s'.enqueued[m] == e.payload && m in s'.changes && s'.changes[m] == 0
    ensures m in s.rows && m in s.enqueued ==> m in s'.enqueued && s'.enqueued[m] == s.enqueued[m]
    ensures m in s.rows && m in s.changes ==>
              && m in s'.changes
              && if s'.changes[m] == s.changes[m] then s'.rows[m] == s.rows[m]
                 else s'.changes[m] == s.changes[m] + 1 && RowChange(s.now, s.nextLease, s.rows[m], s'.rows[m], delay)
    ensures s'.rows[m].lease.Some? ==> s'.rows[m].lease.value.id < s'.nextLease || (m in s.rows && s'.rows[m].lease == s.rows[m].lease)
    ensures s.nextLease <= s'.nextLease
  {
    hide Step;
    if e.Finish? {
      delay := FinishRowShape(s, e, s', m);
    } else {
      delay := 0;
      OtherRowShape(s, e, s', m);
    }
  }

  lemma FinishRowShape(s: Sys, e: Event, s': Sys, m: Id) returns (delay: nat)
    requires Step(s, e, s') && e.Finish? && m in s'.rows
    ensures m !in s.rows ==> && e.Enqueue? && s'.rows[m] == Enqueued(s.now, e.expiresAt, e.payload)
                             && m in s'.enqueued && s'.enqueued[m] == e.payload && m in s'.changes && s'.changes[m] == 0
    ensures m in s.rows && m in s.enqueued ==> m in s'.enqueued && s'.enqueued[m] == s.enqueued[m]
    ensures m in s.rows && m in s.changes ==>
              && m in s'.changes
              && if s'.changes[m] == s.changes[m] then s'.rows[m] == s.rows[m]
                 else s'.changes[m] == s.changes[m] + 1 && RowChange(s.now, s.nextLease, s.rows[m], s'.rows[m], delay)
    ensures s'.rows[m].lease.Some? ==> s'.rows[m].lease.value.id < s'.nextLease || (m in s.rows && s'.rows[m].lease == s.rows[m].lease)
    ensures s.nextLease <= s'.nextLease
  {
    hide RetryDelay;
    delay := RetryDelay(s.consumers[e.consumer].row.attempts, e.jitter);
  }

  lemma OtherRowShape(s: Sys, e: Event, s': Sys, m: Id)
    requires Step(s, e, s') && !e.Finish? && m in s'.rows
    ensures m !in s.rows ==> && e.Enqueue? && s'.rows[m] == Enqueued(s.now, e.expiresAt, e.payload)
                             && m in s'.enqueued && s'.enqueued[m] == e.payload && m in s'.changes && s'.changes[m] == 0
    ensures m in s.rows && m in s.enqueued ==> m in s'.enqueued && s'.enqueued[m] == s.enqueued[m]
    ensures m in s.rows && m in s.changes ==>
              && m in s'.changes
              && if s'.changes[m] == s.changes[m] then s'.rows[m] == s.rows[m]
                 else s'.changes[m] == s.changes[m] + 1 && RowChange(s.now, s.nextLease, s.rows[m], s'.rows[m], 0)
    ensures s'.rows[m].lease.Some? ==> s'.rows[m].lease.value.id < s'.nextLease || (m in s.rows && s'.rows[m].lease == s.rows[m].lease)
    ensures s.nextLease <= s'.nextLease
  {
    hide Deadline, CanClaim, CanExpire;
  }

  lemma StepRow(s: Sys, e: Event, s': Sys, m: Id)
    requires Step(s, e, s') && m in s'.rows
    requires m in s.rows ==> RowInv(s, m)
    ensures RowInv(s', m)
  {
    hide Step;
    var delay := StepRowShape(s, e, s', m);
  }

  lemma StepRows(s: Sys, e: Event, s': Sys)
    requires RowsOk(s) && Step(s, e, s')
    ensures RowsOk(s')
  {
    hide Step, RowInv;
    forall m | m in s'.rows
      ensures RowInv(s', m)
    {
      StepRow(s, e, s', m);
    }
    StepEnqueued(s, e, s');
  }

  lemma StepEnqueued(s: Sys, e: Event, s': Sys)
    requires Step(s, e, s') && (forall m | m in s.enqueued :: m in s.rows)
    ensures forall m | m in s'.enqueued :: m in s'.rows
  {
    hide RetryDelay, Deadline;
  }

  lemma RowIsOk(s: Sys, m: Id)
    requires RowsOk(s) && m in s.rows
    ensures RowOk(s.rows[m])
    ensures s.rows[m].lease.Some? ==> s.rows[m].lease.value.id < s.nextLease
  {
    assert RowInv(s, m);
  }

  /** What a step can do to a consumer that it is not about: only the clock and its row may have moved. */
  lemma StepOtherConsumer(s: Sys, e: Event, s': Sys, c: Id)
    requires Step(s, e, s') && c in s'.consumers && c in s.consumers && s'.consumers[c] == s.consumers[c] && ConsumerOk(s, s.consumers[c])
    requires RowsOk(s)
    requires e.Finish? && Busy(s.consumers[c]) ==> e.consumer in s.consumers && s.consumers[e.consumer].lease != s.consumers[c].lease
    ensures ConsumerOk(s', s'.consumers[c])
  {
    hide Step, RowsOk, ConsumerOk;
    if e.Finish? {
      FinishOtherConsumer(s, e, s', c);
    } else {
      PlainOtherConsumer(s, e, s', c);
    }
  }

  lemma FinishOtherConsumer(s: Sys, e: Event, s': Sys, c: Id)
    requires Step(s, e, s') && e.Finish? && c in s'.consumers && c in s.consumers && s'.consumers[c] == s.consumers[c] && ConsumerOk(s, s.consumers[c])
    requires RowsOk(s)
    requires Busy(s.consumers[c]) ==> e.consumer in s.consumers && s.consumers[e.consumer].lease != s.consumers[c].lease
    ensures ConsumerOk(s', s'.consumers[c])
  {
    hide RetryDelay, Deadline, RowInv, Delivered;
    var k := s.consumers[c];
    if Busy(k) {
      RowIsOk(s, k.mail);
      if k.Done? && k.ok {
        StepKeepsDelivered(s, e, s', k.mail, k.lease);
      }
    }
  }

  lemma PlainOtherConsumer(s: Sys, e: Event, s': Sys, c: Id)
    requires Step(s, e, s') && !e.Finish? && c in s'.consumers && c in s.consumers && s'.consumers[c] == s.consumers[c] && ConsumerOk(s, s.consumers[c])
    requires RowsOk(s)
    ensures ConsumerOk(s', s'.consumers[c])
  {
    hide RetryDelay, Deadline, RowInv, Delivered;
    var k := s.consumers[c];
    if Busy(k) {
      RowIsOk(s, k.mail);
      if k.Done? && k.ok {
        StepKeepsDelivered(s, e, s', k.mail, k.lease);
      }
    }
  }

  lemma StepThisConsumer(s: Sys, e: Event, s': Sys, c: Id)
    requires Step(s, e, s') && c in s'.consumers && c in s.consumers && s'.consumers[c] != s.consumers[c] && ConsumerOk(s, s.consumers[c])
    requires RowsOk(s)
    ensures ConsumerOk(s', s'.consumers[c])
    ensures Busy(s'.consumers[c]) ==> if Busy(s.consumers[c]) then s'.consumers[c].lease == s.consumers[c].lease else s'.consumers[c].lease == s.nextLease
  {
    hide RetryDelay, RowsOk, Retried;
    if e.EndSend? && e.ok {
      assert Delivered(s'.windows[|s.windows|], s'.consumers[c].mail, s'.consumers[c].lease);
    }
  }

  lemma StepConsumers(s: Sys, e: Event, s': Sys)
    requires Inv(s) && Step(s, e, s')
    ensures ConsumersOk(s')
  {
    hide RowsOk, WindowsOk, CompletedOk, ConsumerOk, RetryDelay, Deadline, Retried, Claimed, Emptied;
    forall c | c in s'.consumers
      ensures ConsumerOk(s', s'.consumers[c])
      ensures Busy(s'.consumers[c]) ==> c in s.consumers && if Busy(s.consumers[c]) then s'.consumers[c].lease == s.consumers[c].lease else s'.consumers[c].lease == s.nextLease
    {
      assert c in s.consumers;
      if s'.consumers[c] == s.consumers[c] {
        StepOtherConsumer(s, e, s', c);
      } else {
        StepThisConsumer(s, e, s', c);
      }
    }
    forall c | c in s.consumers && Busy(s.consumers[c])
      ensures s.consumers[c].lease < s.nextLease
    {
      LeaseIsOld(s, s.consumers[c]);
    }
  }

  lemma LeaseIsOld(s: Sys, k: Consumer)
    requires ConsumerOk(s, k) && Busy(k)
    ensures k.lease < s.nextLease
  {
  }

  // ---- windows

  /** What a step does to the row of a past window. */
  lemma StepOldWindow(s: Sys, e: Event, s': Sys, w: Window)
    requires Step(s, e, s') && WindowOk(s, w) && RowsOk(s)
    ensures WindowOk(s', w)
  {
    hide RetryDelay, Deadline, RowInv;
    RowIsOk(s, w.mail);
    if e.Finish? {
      var k := s.consumers[e.consumer];
      RetryDelaysGrow(k.row.attempts, k.row.attempts, e.jitter, e.jitter);
    }
    match e {
      case Tick(_) =>
      case Enqueue(_, _, _) =>
      case Expire(_) =>
      case Claim(_, _) =>
      case ClaimLost(_) =>
      case StartSend(_) =>
      case SkipSend(_) =>
      case EndSend(_, _) =>
      case Finish(_, _) =>
      case Crash(_) =>
    }
  }

  /** The window a step records, if any. */
  lemma StepNewWindow(s: Sys, e: Event, s': Sys)
    requires Step(s, e, s') && RowsOk(s) && (e.EndSend? || (e.Crash? && s.consumers[e.consumer].Sending?))
    requires ConsumerOk(s, s.consumers[e.consumer])
    ensures |s'.windows| == |s.windows| + 1 && s'.windows[..|s.windows|] == s.windows
    ensures var w := s'.windows[|s.windows|];
            && WindowOk(s', w) && w.lease == s.consumers[e.consumer].lease
            && forall v | WindowOk(s, v) && v.mail == w.mail && v.lease != w.lease :: w.from >= v.to + FINISH_RESERVE
  {
    hide RowInv;
    RowIsOk(s, s.consumers[e.consumer].mail);
  }

  lemma StepKeepsWindows(s: Sys, e: Event, s': Sys)
    requires Step(s, e, s') && !e.EndSend? && !(e.Crash? && s.consumers[e.consumer].Sending?)
    ensures s'.windows == s.windows
  {
    hide RetryDelay, Deadline;
  }

  /** A consumer that may still send holds the same lease as before, or a fresh one. */
  lemma StepSender(s: Sys, e: Event, s': Sys, c: Id)
    requires Step(s, e, s') && c in s'.consumers && (s'.consumers[c].Holding? || s'.consumers[c].Sending?)
    ensures c in s.consumers
    ensures || s'.consumers[c].lease == s.nextLease
            || ((s.consumers[c].Holding? || s.consumers[c].Sending?) && s'.consumers[c].lease == s.consumers[c].lease)
    ensures e.EndSend? || e.Crash? ==> c != e.consumer && s'.consumers[c] == s.consumers[c]
  {
    hide RetryDelay, Deadline;
  }

  lemma OldWindows(s: Sys, i: nat)
    requires WindowsOk(s) && i < |s.windows|
    ensures WindowOk(s, s.windows[i]) && s.windows[i].lease < s.nextLease
  {
  }

  lemma StepWindows(s: Sys, e: Event, s': Sys)
    requires Inv(s) && Step(s, e, s')
    ensures WindowsOk(s')
  {
    hide Step, RowsOk, ConsumerOk, CompletedOk, WindowOk;
    var n := |s.windows|;
    var extended := e.EndSend? || (e.Crash? && e.consumer in s.consumers && s.consumers[e.consumer].Sending?);
    StepConsumerKnown(s, e, s');
    if extended {
      StepNewWindow(s, e, s');
    } else {
      StepKeepsWindows(s, e, s');
    }
    forall i | 0 <= i < |s'.windows|
      ensures WindowOk(s', s'.windows[i])
      ensures i < n ==> s'.windows[i] == s.windows[i] && s'.windows[i].lease < s.nextLease
    {
      if i < n {
        assert s'.windows[i] == s'.windows[..n][i];
        OldWindows(s, i);
        StepOldWindow(s, e, s', s.windows[i]);
      }
    }
    forall i, c | 0 <= i < |s'.windows| && c in s'.consumers && (s'.consumers[c].Holding? || s'.consumers[c].Sending?)
      ensures s'.windows[i].lease != s'.consumers[c].lease
    {
      StepSender(s, e, s', c);
    }
    forall i, j | 0 <= i < j < |s'.windows| && s'.windows[i].mail == s'.windows[j].mail
      ensures s'.windows[j].from >= s'.windows[i].to + FINISH_RESERVE
    {
      if j == n {
        OldWindows(s, i);
      }
    }
  }

  lemma StepConsumerKnown(s: Sys, e: Event, s': Sys)
    requires Step(s, e, s')
    ensures e.EndSend? || e.Crash? || e.Finish? ==> e.consumer in s.consumers
    ensures e.EndSend? ==> s.consumers[e.consumer].Sending?
    ensures e.Finish? ==> s.consumers[e.consumer].Done?
  {
  }

  // ---- completions

  lemma StepKeepsDelivered(s: Sys, e: Event, s': Sys, m: Id, lease: Id)
    requires Step(s, e, s') && exists i | 0 <= i < |s.windows| :: Delivered(s.windows[i], m, lease)
    ensures exists i | 0 <= i < |s'.windows| :: Delivered(s'.windows[i], m, lease)
  {
    hide RetryDelay, Deadline;
    var i :| 0 <= i < |s.windows| && Delivered(s.windows[i], m, lease);
    assert s'.windows[i] == s.windows[i];
  }

  /** A row becomes sent only by a consumer whose own send returned without an error. */
  lemma StepCompletedBy(s: Sys, e: Event, s': Sys, m: Id)
    requires Step(s, e, s') && RowsOk(s)
    requires m in s.rows ==> (s.rows[m].status.Sent? <==> m in s.completedBy)
    requires m !in s.rows ==> m !in s.completedBy
    ensures m in s'.rows ==> (s'.rows[m].status.Sent? <==> m in s'.completedBy)
    ensures m !in s'.rows ==> m !in s'.completedBy
    ensures m in s'.completedBy ==>
              || (m in s.completedBy && s'.completedBy[m] == s.completedBy[m])
              || (e.Finish? && s.consumers[e.consumer].ok && s.consumers[e.consumer].mail == m && s'.completedBy[m] == s.consumers[e.consumer].lease)
  {
    hide RetryDelay, Deadline, RowInv;
    if m in s.rows {
      RowIsOk(s, m);
    }
  }

  lemma StepCompleted(s: Sys, e: Event, s': Sys)
    requires Inv(s) && Step(s, e, s')
    ensures CompletedOk(s')
  {
    hide Step, RowsOk, WindowsOk, Delivered;
    StepConsumerKnown(s, e, s');
    forall m: Id
      ensures m in s'.rows ==> (s'.rows[m].status.Sent? <==> m in s'.completedBy)
      ensures m !in s'.rows ==> m !in s'.completedBy
      ensures m in s'.completedBy ==> exists i | 0 <= i < |s'.windows| :: Delivered(s'.windows[i], m, s'.completedBy[m])
    {
      StepCompletedBy(s, e, s', m);
      if m in s'.completedBy {
        if e.Finish? {
          assert ConsumerOk(s, s.consumers[e.consumer]);
        }
        StepKeepsDelivered(s, e, s', m, s'.completedBy[m]);
      }
    }
  }

  /** The invariant holds after every step. */
  lemma StepInv(s: Sys, e: Event, s': Sys)
    requires Inv(s) && Step(s, e, s')
    ensures Inv(s')
  {
    StepRows(s, e, s');
    StepConsumers(s, e, s');
    StepWindows(s, e, s');
    StepCompleted(s, e, s');
  }

  // ---- runs

  lemma NextInv(s: Sys, s': Sys)
    requires Inv(s) && Next(s, s')
    ensures Inv(s')
  {
    hide Inv, Step;
    if s != s' {
      var e :| Step(s, e, s');
      StepInv(s, e, s');
    }
  }

  lemma {:induction false} RunInv(t: seq<Sys>, i: nat)
    requires Run(t) && i < |t|
    ensures Inv(t[i])
  {
    hide Inv, Next, Init;
    if i == 0 {
      InitInv(t[0]);
    } else {
      RunInv(t, i - 1);
      NextInv(t[i - 1], t[i]);
    }
  }

  /** A consumer inside `send` for mail m. */
  predicate Inside(s: Sys, c: Id, m: Id) {
    c in s.consumers && s.consumers[c].Sending? && s.consumers[c].mail == m
  }

  /**
   In every reachable state at most one consumer is inside `send` for a mail; while it is, the row
   is exactly as it claimed it and its lease has at least five seconds left.
   */
  lemma OneSenderPerMail(t: seq<Sys>, i: nat, m: Id, c: Id)
    requires Run(t) && i < |t| && Inside(t[i], c, m)
    ensures forall d | Inside(t[i], d, m) :: d == c
    ensures m in t[i].rows && t[i].rows[m] == t[i].consumers[c].row && Holds(t[i].rows[m], t[i].consumers[c].lease, t[i].now + FINISH_RESERVE - 1)
    ensures t[i].now <= t[i].rows[m].expiresAt
  {
    RunInv(t, i);
    hide Run;
    SenderHolds(t[i], c);
    forall d | Inside(t[i], d, m)
      ensures d == c
    {
      SenderHolds(t[i], d);
      LeasesDiffer(t[i], c, d);
    }
  }

  lemma SenderHolds(s: Sys, c: Id)
    requires Inv(s) && c in s.consumers && s.consumers[c].Sending?
    ensures var k := s.consumers[c];
            && k.mail in s.rows && s.rows[k.mail] == k.row && k.started <= s.now <= k.deadline <= k.row.expiresAt
            && k.row.status.Processing? && k.row.lease.Some? && k.row.lease.value.id == k.lease && k.row.lease.value.until >= s.now + FINISH_RESERVE
            && k.started + LEASE >= k.row.lease.value.until
  {
    hide RowsOk, WindowsOk, CompletedOk;
    assert ConsumerOk(s, s.consumers[c]);
  }

  lemma LeasesDiffer(s: Sys, c: Id, d: Id)
    requires Inv(s) && c in s.consumers && d in s.consumers && Busy(s.consumers[c]) && Busy(s.consumers[d])
    ensures s.consumers[c].lease == s.consumers[d].lease ==> c == d
  {
    hide RowsOk, WindowsOk, CompletedOk, ConsumerOk;
  }

  /** The stays inside `send` for one mail never overlap: between two of them lie at least five seconds. */
  lemma SendWindowsDisjoint(t: seq<Sys>, i: nat, a: nat, b: nat)
    requires Run(t) && i < |t| && a < b < |t[i].windows| && t[i].windows[a].mail == t[i].windows[b].mail
    ensures t[i].windows[a].from <= t[i].windows[a].to < t[i].windows[a].to + FINISH_RESERVE <= t[i].windows[b].from
  {
    RunInv(t, i);
    hide Run;
    WindowsApart(t[i], a, b);
  }

  lemma WindowsApart(s: Sys, a: nat, b: nat)
    requires Inv(s) && a < b < |s.windows| && s.windows[a].mail == s.windows[b].mail
    ensures s.windows[a].from <= s.windows[a].to && s.windows[a].to + FINISH_RESERVE <= s.windows[b].from
  {
    hide RowsOk, ConsumersOk, CompletedOk;
    assert WindowOk(s, s.windows[a]);
  }

  /** The same between a past stay and one that is still going on. */
  lemma PresentSendIsApart(t: seq<Sys>, i: nat, a: nat, c: Id)
    requires Run(t) && i < |t| && a < |t[i].windows| && Inside(t[i], c, t[i].windows[a].mail)
    ensures t[i].windows[a].to + FINISH_RESERVE <= t[i].consumers[c].started
  {
    RunInv(t, i);
    hide Run;
    SenderHolds(t[i], c);
    SenderApart(t[i], a, c);
  }

  lemma SenderApart(s: Sys, a: nat, c: Id)
    requires Inv(s) && a < |s.windows| && Inside(s, c, s.windows[a].mail)
    ensures s.windows[a].to + FINISH_RESERVE <= s.consumers[c].started
  {
    SenderHolds(s, c);
    hide RowsOk, ConsumersOk, CompletedOk;
    assert WindowOk(s, s.windows[a]);
  }

  /** A finishing statement under a lease that the row no longer carries, or that has run out, changes no row. */
  lemma StaleFinishChangesNothing(s: Sys, c: Id, jitter: nat, s': Sys)
    requires Inv(s) && Step(s, Finish(c, jitter), s')
    ensures var k := s.consumers[c];
            s'.rows != s.rows <==> s.rows[k.mail].status.Processing? && s.rows[k.mail].lease == k.row.lease && s.now < k.row.lease.value.until
    ensures var k := s.consumers[c];
            s'.rows != s.rows ==> if k.ok then s'.rows[k.mail].status.Sent? else s'.rows[k.mail].status.Pending? || s'.rows[k.mail].status.Failed?
  {
    hide WindowsOk, CompletedOk, RetryDelay;
    var k := s.consumers[c];
    assert ConsumerOk(s, k);
    RowIsOk(s, k.mail);
    if Holds(s.rows[k.mail], k.lease, s.now) {
      assert s'.rows[k.mail] != s.rows[k.mail];
    }
  }

  // ---- the life of one mail

  /** Finished rows never change; any other row keeps its payload and expiry, and its attempts only grow. */
  predicate RowEvolves(a: Row, b: Row) {
    && b.expiresAt == a.expiresAt && b.createdAt == a.createdAt && a.attempts <= b.attempts && Remaining(b) <= Remaining(a)
    && (Terminal(a) ==> b == a)
    && (b.payload == a.payload || Terminal(b))
    && (a != b ==> Remaining(b) < Remaining(a))
  }

  ghost predicate Evolves(a: Sys, b: Sys) {
    && a.now <= b.now && a.windows <= b.windows
    && (forall m | m in a.rows :: m in b.rows && RowEvolves(a.rows[m], b.rows[m]))
    && (forall m | m in a.enqueued :: m in b.enqueued && b.enqueued[m] == a.enqueued[m])
  }

  lemma StepRowEvolves(s: Sys, e: Event, s': Sys, m: Id)
    requires Step(s, e, s') && m in s.rows && RowOk(s.rows[m])
    ensures m in s'.rows && RowEvolves(s.rows[m], s'.rows[m])
  {
    hide RetryDelay, Deadline;
  }

  lemma StepEvolves(s: Sys, e: Event, s': Sys)
    requires Inv(s) && Step(s, e, s')
    ensures Evolves(s, s')
  {
    forall m | m in s.rows
      ensures m in s'.rows && RowEvolves(s.rows[m], s'.rows[m])
    {
      RowIsOk(s, m);
      StepRowEvolves(s, e, s', m);
    }
    forall m | m in s.enqueued
      ensures m in s'.enqueued && s'.enqueued[m] == s.enqueued[m]
    {
      StepKeepsEnqueued(s, e, s', m);
    }
    hide RowEvolves, RowsOk, ConsumersOk, WindowsOk, CompletedOk, RetryDelay, Deadline;
    StepTime(s, e, s');
  }

  lemma StepTime(s: Sys, e: Event, s': Sys)
    requires Step(s, e, s')
    ensures s.now <= s'.now && s.windows <= s'.windows
  {
    hide RetryDelay, Deadline;
  }

  lemma StepKeepsEnqueued(s: Sys, e: Event, s': Sys, m: Id)
    requires Step(s, e, s') && m in s.enqueued && RowsOk(s) && (m in s.enqueued ==> m in s.rows)
    ensures m in s'.enqueued && s'.enqueued[m] == s.enqueued[m]
  {
    hide RetryDelay, Deadline;
  }

  lemma {:induction false} RunEvolves(t: seq<Sys>, i: nat, j: nat)
    requires Run(t) && i <= j < |t|
    ensures Evolves(t[i], t[j])
    decreases j
  {
    hide Inv, Next, Init;
    if i < j {
      RunEvolves(t, i, j - 1);
      RunInv(t, j - 1);
      assert Next(t[j - 1], t[j]);
      NextEvolves(t[j - 1], t[j]);
    }
  }

  lemma NextEvolves(s: Sys, s': Sys)
    requires Inv(s) && Next(s, s')
    ensures Evolves(s, s')
  {
    hide Inv, Step;
    if s != s' {
      var e :| Step(s, e, s');
      StepEvolves(s, e, s');
    }
  }

  /**
   A mail is claimed at most five times and its row changes at most ten times over any run; a lease
   exists exactly while it is processed, and the enqueued payload exactly until it is finished.
   */
  lemma MailLife(t: seq<Sys>, i: nat, m: Id)
    requires Run(t) && i < |t| && m in t[i].rows
    ensures t[i].rows[m].attempts <= 5 && m in t[i].changes && t[i].changes[m] <= 10
    ensures t[i].rows[m].lease.Some? <==> t[i].rows[m].status.Processing?
    ensures m in t[i].enqueued && t[i].rows[m].payload == if Terminal(t[i].rows[m]) then None else Some(t[i].enqueued[m])
  {
    RunInv(t, i);
    hide Run;
    LifeOf(t[i], m);
  }

  lemma LifeOf(s: Sys, m: Id)
    requires Inv(s) && m in s.rows
    ensures s.rows[m].attempts <= 5 && m in s.changes && s.changes[m] <= 10
    ensures s.rows[m].lease.Some? <==> s.rows[m].status.Processing?
    ensures m in s.enqueued && s.rows[m].payload == if Terminal(s.rows[m]) then None else Some(s.enqueued[m])
  {
    hide ConsumersOk, WindowsOk, CompletedOk;
    assert RowInv(s, m);
  }

  /** The recorded numbers are what they claim: a step counts a row change exactly when the row changes, an attempt exactly when it is a claim. */
  lemma CountsAreExact(s: Sys, e: Event, s': Sys, m: Id)
    requires Inv(s) && Step(s, e, s') && m in s.rows
    ensures m in s.changes && m in s'.changes && m in s'.rows
    ensures s'.changes[m] == s.changes[m] + if s'.rows[m] != s.rows[m] then 1 else 0
    ensures s'.rows[m].attempts == s.rows[m].attempts + if (e.Claim? || e.ClaimLost?) && e.mail == m then 1 else 0
  {
    hide Step, ConsumersOk, WindowsOk, CompletedOk;
    assert RowInv(s, m);
    StepAttempts(s, e, s', m);
    var delay := StepRowShape(s, e, s', m);
  }

  lemma StepAttempts(s: Sys, e: Event, s': Sys, m: Id)
    requires Step(s, e, s') && m in s.rows
    ensures m in s'.rows && s'.rows[m].attempts == s.rows[m].attempts + if (e.Claim? || e.ClaimLost?) && e.mail == m then 1 else 0
  {
    hide RetryDelay, Deadline, CanClaim, CanExpire, Holds;
  }

  /** Sent and failed are final, with an empty payload. */
  lemma FinishedIsFinal(t: seq<Sys>, i: nat, j: nat, m: Id)
    requires Run(t) && i <= j < |t| && m in t[i].rows && Terminal(t[i].rows[m])
    ensures m in t[j].rows && t[j].rows[m] == t[i].rows[m] && t[j].rows[m].payload.None?
  {
    hide Next, Init;
    RunEvolves(t, i, j);
    MailLife(t, i, m);
    assert RowEvolves(t[i].rows[m], t[j].rows[m]);
  }

  /** A sent mail was sent: some consumer's send returned without an error under the lease that completed it. */
  lemma SentWasDelivered(t: seq<Sys>, i: nat, m: Id)
    requires Run(t) && i < |t| && m in t[i].rows && t[i].rows[m].status.Sent?
    ensures m in t[i].completedBy && exists w | 0 <= w < |t[i].windows| :: Delivered(t[i].windows[w], m, t[i].completedBy[m])
  {
    RunInv(t, i);
    hide Run;
    SentDelivered(t[i], m);
  }

  lemma SentDelivered(s: Sys, m: Id)
    requires Inv(s) && m in s.rows && s.rows[m].status.Sent?
    ensures m in s.completedBy && exists w | 0 <= w < |s.windows| :: Delivered(s.windows[w], m, s.completedBy[m])
  {
    hide RowsOk, ConsumersOk, WindowsOk;
  }
}
