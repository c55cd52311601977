/**
 Running a callback under a lock: the caller's thread checks the context, enters the callback, stops the
 watcher, waits for it and releases the lock; a second thread watches the lock meanwhile. The two
 threads, the loss of the lock and a cancellation from outside interleave in every possible way.
 */
module LockExecution {
  import opened Wrappers

  /** What errors.Is finds in a joined error; the empty set is nil. */
  datatype Kind = TaskFailed | LockLost | ParentCancelled | ReleaseFailed

  /** How Watch returned: with the context's own cancellation error, with nil, or with any other error. */
  datatype WatchEnd = WithCancellation | WithNil | WithFailure

  datatype Caller = Checking | InTask | TaskOver | Waiting | Joined | Finished

  datatype Watcher = Watching | Returned(end: WatchEnd) | JudgedNormal | JudgedLost | Reported | Sent

  datatype TaskEnd = Succeeded | FailedWith | Panicked

  /**
   `cause` is the cancellation cause of the work context, `stopped` the state of the watch context,
   `channel` whether the watcher sent a loss. The last four fields record what happened and are read by nobody.
   */
  datatype State = State(
    caller: Caller,
    watcher: Watcher,
    cause: Option<Kind>,
    stopped: bool,
    channel: Option<bool>,
    ran: bool,
    err: set<Kind>,
    entered: nat,
    releases: nat,
    taskEnd: Option<TaskEnd>,
    causeAtJoin: Option<Kind>,
    released: Option<bool>)

  datatype Event =
    | CancelParent
    | Check
    | EndTask(result: TaskEnd)
    | Stop
    | Receive
    | Release(ok: bool)
    | EndWatch(end: WatchEnd)
    | Judge
    | CancelWork
    | Send

  const START: State := State(Checking, Watching, None, false, None, false, {}, 0, 0, None, None, None)

  function AsSet(k: Option<Kind>): set<Kind> {
    if k.Some? then {k.value} else {}
  }

  /** The first cancellation of the work context fixes its cause. */
  function Cancelled(s: State, k: Kind): State {
    if s.cause.Some? then s else s.(cause := Some(k))
  }

  predicate Step(s: State, e: Event, s': State) {
    match e
    case CancelParent => s' == Cancelled(s, ParentCancelled)
    case Check =>
      && s.caller.Checking?
      && s' == if s.cause.Some? then s.(caller := TaskOver, err := AsSet(s.cause)) else s.(caller := InTask, ran := true, entered := s.entered + 1)
    case EndTask(result) =>
      && s.caller.InTask?
      && s' == s.(caller := TaskOver, taskEnd := Some(result), err := if result.FailedWith? then {TaskFailed} else {})
    case Stop => s.caller.TaskOver? && s' == s.(caller := Waiting, stopped := true)
    case Receive =>
      && s.caller.Waiting? && s.channel.Some?
      && s' == s.(caller := Joined, err := s.err + (if s.channel.value then {LockLost} else {}) + AsSet(s.cause), causeAtJoin := s.cause)
    case Release(ok) =>
      && s.caller.Joined?
      && s' == s.(caller := Finished, releases := s.releases + 1, released := Some(ok), err := s.err + if ok then {} else {ReleaseFailed})
    case EndWatch(end) => s.watcher.Watching? && s' == s.(watcher := Returned(end))
    case Judge =>
      && s.watcher.Returned?
      && s' == s.(watcher := if s.stopped && s.watcher.end.WithCancellation? then JudgedNormal else JudgedLost)
    case CancelWork => s.watcher.JudgedLost? && s' == Cancelled(s, LockLost).(watcher := Reported)
    case Send =>
      && (s.watcher.JudgedNormal? || s.watcher.Reported?)
      && s' == s.(watcher := Sent, channel := Some(s.watcher.Reported?))
  }

  ghost predicate Next(s: State, s': State) {
    exists e :: Step(s, e, s')
  }

  ghost predicate Run(t: seq<State>) {
    t != [] && t[0] == START && forall i | 0 <= i < |t| - 1 :: Next(t[i], t[i + 1])
  }

  predicate TaskStarted(c: Caller) {
    !c.Checking?
  }

  predicate Stopped(c: Caller) {
    c.Waiting? || c.Joined? || c.Finished?
  }

  predicate AfterJoin(c: Caller) {
    c.Joined? || c.Finished?
  }

  /** The errors of the callback and, after the join, of the watcher and the work context. */
  function Expected(s: State): set<Kind> {
    (if s.taskEnd == Some(FailedWith) then {TaskFailed} else {})
    + (if !s.ran && TaskStarted(s.caller) then AsSet(s.cause) else {})
    + (if AfterJoin(s.caller) then AsSet(s.causeAtJoin) + (if s.channel == Some(true) then {LockLost} else {}) else {})
    + (if s.released == Some(false) then {ReleaseFailed} else {})
  }

  predicate Inv(s: State) {
    && (s.caller.Checking? ==> !s.ran)
    && (s.caller.InTask? ==> s.ran)
    && (s.taskEnd.Some? <==> s.ran && !s.caller.InTask?)
    && s.entered == (if s.ran then 1 else 0)
    && (s.stopped <==> Stopped(s.caller))
    && (s.channel.Some? <==> s.watcher.Sent?)
    && (s.watcher.JudgedNormal? ==> s.stopped)
    && (s.watcher.Reported? || s.channel == Some(true) ==> s.cause.Some?)
    && (AfterJoin(s.caller) ==> s.watcher.Sent? && (s.channel == Some(true) ==> s.causeAtJoin.Some?))
    && (s.causeAtJoin == Some(LockLost) ==> s.channel == Some(true))
    && (s.cause == Some(LockLost) ==> s.watcher.Reported? || s.channel == Some(true))
    && (!s.ran && TaskStarted(s.caller) ==> s.cause.Some?)
    && (s.causeAtJoin.Some? ==> s.cause == s.causeAtJoin && AfterJoin(s.caller))
    && (s.cause.Some? ==> s.cause.value.LockLost? || s.cause.value.ParentCancelled?)
    && (!s.ran && AfterJoin(s.caller) ==> s.causeAtJoin.Some?)
    && s.releases == (if s.caller.Finished? then 1 else 0)
    && (s.released.Some? <==> s.caller.Finished?)
    && s.err == Expected(s)
  }

  lemma StepInv(s: State, e: Event, s': State)
    requires Inv(s) && Step(s, e, s')
    ensures Inv(s')
  {
  }

  lemma {:induction false} RunInv(t: seq<State>, i: nat)
    requires Run(t) && i < |t|
    ensures Inv(t[i])
  {
    if i > 0 {
      RunInv(t, i - 1);
      assert Next(t[i - 1], t[i]);
      var e :| Step(t[i - 1], e, t[i]);
      StepInv(t[i - 1], e, t[i]);
    }
  }

  /** The lock is released at most once, and only after both the watcher and the callback have ended. */
  lemma ReleasedOnceAtTheEnd(t: seq<State>, i: nat)
    requires Run(t) && i < |t|
    ensures t[i].releases <= 1 && (t[i].releases == 1 <==> t[i].caller.Finished?)
    ensures i + 1 < |t| && t[i + 1].releases > t[i].releases ==>
              && t[i].watcher.Sent? && t[i + 1].watcher.Sent?
              && (t[i].taskEnd.Some? || (!t[i].ran && t[i].entered == 0))
  {
    RunInv(t, i);
    if i + 1 < |t| {
      RunInv(t, i + 1);
      assert Next(t[i], t[i + 1]);
    }
  }

  /** `ran` is true exactly when the callback was entered; it is entered at most once. */
  lemma RanMeansEntered(t: seq<State>, i: nat)
    requires Run(t) && i < |t|
    ensures t[i].entered <= 1 && (t[i].ran <==> t[i].entered == 1)
  {
    RunInv(t, i);
  }

  /**
   What the caller learns. The error is nil exactly when the callback was entered and returned nil (or
   panicked, and then nobody sees the error), the watcher ended normally, nothing had cancelled the
   work when the watcher was joined, and the release succeeded.
   */
  lemma ErrorIsExact(t: seq<State>, i: nat)
    requires Run(t) && i < |t| && t[i].caller.Finished?
    ensures t[i].err == {} <==> t[i].ran && t[i].taskEnd != Some(FailedWith) && t[i].channel == Some(false) && t[i].causeAtJoin.None? && t[i].released == Some(true)
    ensures t[i].channel == Some(true) ==> LockLost in t[i].err
    ensures LockLost in t[i].err ==> t[i].channel == Some(true)
    ensures TaskFailed in t[i].err <==> t[i].taskEnd == Some(FailedWith)
    ensures ReleaseFailed in t[i].err <==> t[i].released == Some(false)
    ensures ParentCancelled in t[i].err <==> t[i].causeAtJoin == Some(ParentCancelled)
    ensures !t[i].ran ==> t[i].err != {}
  {
    RunInv(t, i);
    var s := t[i];
    assert s.causeAtJoin.Some? ==> s.causeAtJoin.value in s.err;
    assert s.taskEnd == Some(FailedWith) ==> TaskFailed in s.err;
    assert s.channel == Some(true) ==> LockLost in s.err;
    assert s.released == Some(false) ==> ReleaseFailed in s.err;
    if s.ran && s.taskEnd != Some(FailedWith) && s.channel == Some(false) && s.causeAtJoin.None? && s.released == Some(true) {
      assert Expected(s) == {};
    } else {
      assert s.channel == Some(s.channel.value) && s.released == Some(s.released.value);
      assert !s.ran ==> s.causeAtJoin.Some?;
      assert s.channel.value ==> LockLost in s.err;
      assert !s.released.value ==> ReleaseFailed in s.err;
    }
  }

  /** Nothing cancelled the work by the join exactly when the parent was not cancelled before it and the watcher ended normally. */
  lemma {:induction false} JoinedCleanly(t: seq<State>, j: nat)
    requires Run(t) && j + 1 < |t| && Step(t[j], Receive, t[j + 1])
    ensures t[j + 1].causeAtJoin.None? <==> t[j].channel == Some(false) && forall i | 0 <= i < j :: !ParentCancels(t[i], t[i + 1])
  {
    RunInv(t, j);
    RunInv(t, j + 1);
    CauseHistory(t, j);
  }

  /** The step is the cancellation that fixed the cause. */
  predicate ParentCancels(s: State, s': State) {
    s.cause.None? && s'.cause == Some(ParentCancelled)
  }

  /** The cause is the parent's exactly when some earlier step was that cancellation. */
  lemma {:induction false} CauseHistory(t: seq<State>, j: nat)
    requires Run(t) && j < |t|
    ensures t[j].cause == Some(ParentCancelled) <==> exists i | 0 <= i < j :: ParentCancels(t[i], t[i + 1])
  {
    if j > 0 {
      hide Step, ParentCancels;
      CauseHistory(t, j - 1);
      assert Next(t[j - 1], t[j]);
      var e :| Step(t[j - 1], e, t[j]);
      StepCause(t[j - 1], e, t[j]);
    }
  }

  lemma StepCause(s: State, e: Event, s': State)
    requires Step(s, e, s')
    ensures s'.cause == Some(ParentCancelled) <==> s.cause == Some(ParentCancelled) || ParentCancels(s, s')
  {
  }

  predicate Losing(s: State) {
    || (s.watcher.Returned? && !s.watcher.end.WithCancellation?)
    || s.watcher.JudgedLost? || s.watcher.Reported? || s.channel == Some(true)
  }

  lemma {:induction false} LossSticks(t: seq<State>, i: nat, j: nat)
    requires Run(t) && i <= j < |t| && Losing(t[i])
    ensures Losing(t[j])
    decreases j
  {
    hide Next, Losing, Inv;
    if i < j {
      LossSticks(t, i, j - 1);
      RunInv(t, j - 1);
      NextLosing(t[j - 1], t[j]);
    }
  }

  lemma NextLosing(s: State, s': State)
    requires Inv(s) && Next(s, s') && Losing(s)
    ensures Losing(s')
  {
    hide Step, Losing, Inv;
    var e :| Step(s, e, s');
    StepLosing(s, e, s');
  }

  lemma StepLosing(s: State, e: Event, s': State)
    requires Inv(s) && Step(s, e, s') && Losing(s)
    ensures Losing(s')
  {
  }

  /** The watcher has judged how the watch ended. */
  predicate Judged(w: Watcher) {
    w.JudgedNormal? || w.JudgedLost? || w.Reported? || w.Sent?
  }

  /** The guard of the one branch that swallows an end: stopped by the time it is judged, and a cancellation. */
  predicate JudgesNormal(s: State) {
    s.stopped && s.watcher.Returned? && s.watcher.end.WithCancellation?
  }

  /**
   The exact condition. The caller learns of a lost lock if and only if, when the end of the watch was
   judged, the watch had not been stopped or had ended in any other way than by cancellation. How and
   when the watch ended does not matter otherwise.
   */
  lemma LossReportedExactly(t: seq<State>, i: nat, j: nat)
    requires Run(t) && i < j < |t| && Step(t[i], Judge, t[i + 1]) && t[j].caller.Finished?
    ensures LockLost in t[j].err <==> !JudgesNormal(t[i])
  {
    RunInv(t, j);
    if JudgesNormal(t[i]) {
      NormalSticks(t, i + 1, j);
    } else {
      LossSticks(t, i + 1, j);
    }
  }

  /** There always is such a judgement: no run finishes without one. */
  lemma {:induction false} EveryWatchIsJudged(t: seq<State>, j: nat) returns (i: nat)
    requires Run(t) && j < |t| && Judged(t[j].watcher)
    ensures i < j && Step(t[i], Judge, t[i + 1])
  {
    hide Step, Judged;
    if j == 0 {
      NotJudgedAtStart();
    } else {
      assert Next(t[j - 1], t[j]);
      var e :| Step(t[j - 1], e, t[j]);
      if Judged(t[j - 1].watcher) {
        i := EveryWatchIsJudged(t, j - 1);
      } else {
        OnlyJudgeJudges(t[j - 1], e, t[j]);
        i := j - 1;
      }
    }
  }

  lemma NotJudgedAtStart()
    ensures !Judged(START.watcher)
  {
  }

  lemma OnlyJudgeJudges(s: State, e: Event, s': State)
    requires Step(s, e, s') && !Judged(s.watcher) && Judged(s'.watcher)
    ensures e == Judge
  {
  }

  lemma FinishedIsJudged(t: seq<State>, j: nat) returns (i: nat)
    requires Run(t) && j < |t| && t[j].caller.Finished?
    ensures i < j && Step(t[i], Judge, t[i + 1]) && (LockLost in t[j].err <==> !JudgesNormal(t[i]))
  {
    RunInv(t, j);
    i := EveryWatchIsJudged(t, j);
    LossReportedExactly(t, i, j);
  }

  predicate Quieted(s: State) {
    s.watcher.JudgedNormal? || s.channel == Some(false)
  }

  lemma {:induction false} NormalSticks(t: seq<State>, i: nat, j: nat)
    requires Run(t) && i <= j < |t| && Quieted(t[i])
    ensures Quieted(t[j])
    decreases j
  {
    hide Next, Quieted, Inv;
    if i < j {
      NormalSticks(t, i, j - 1);
      RunInv(t, j - 1);
      NextQuieted(t[j - 1], t[j]);
    }
  }

  lemma NextQuieted(s: State, s': State)
    requires Inv(s) && Next(s, s') && Quieted(s)
    ensures Quieted(s')
  {
    hide Step, Quieted, Inv;
    var e :| Step(s, e, s');
    StepQuieted(s, e, s');
  }

  lemma StepQuieted(s: State, e: Event, s': State)
    requires Inv(s) && Step(s, e, s') && Quieted(s)
    ensures Quieted(s')
  {
  }

  /**
   The end that is swallowed: the watch returns a cancellation on its own, before anybody stopped it,
   but is judged only after the callback is over and the watch was stopped. The callback ran and the
   error is nil, although nobody watched the lock while the callback ran.
   */
  lemma WatchEndCanBeSwallowed() returns (t: seq<State>)
    ensures t != [] && Run(t)
    ensures |t| == 9 && Step(t[0], EndWatch(WithCancellation), t[1]) && !t[0].stopped
    ensures t[8].caller.Finished? && t[8].ran && t[8].err == {}
  {
    var s1 := START.(watcher := Returned(WithCancellation));
    var s2 := s1.(caller := InTask, ran := true, entered := 1);
    var s3 := s2.(caller := TaskOver, taskEnd := Some(Succeeded));
    var s4 := s3.(caller := Waiting, stopped := true);
    var s5 := s4.(watcher := JudgedNormal);
    var s6 := s5.(watcher := Sent, channel := Some(false));
    var s7 := s6.(caller := Joined);
    var s8 := s7.(caller := Finished, releases := 1, released := Some(true));
    t := [START, s1, s2, s3, s4, s5, s6, s7, s8];
    assert Step(START, EndWatch(WithCancellation), s1) && Step(s1, Check, s2) && Step(s2, EndTask(Succeeded), s3) && Step(s3, Stop, s4);
    assert Step(s4, Judge, s5) && Step(s5, Send, s6) && Step(s6, Receive, s7) && Step(s7, Release(true), s8);
    hide Step;
    forall i | 0 <= i < |t| - 1
      ensures Next(t[i], t[i + 1])
    {
    }
  }

  /** A callback that is entered runs in a context that was not yet cancelled, and is cancelled once a loss has been reported. */
  lemma LossCancelsTask(t: seq<State>, i: nat)
    requires Run(t) && i < |t|
    ensures t[i].watcher.Reported? || t[i].channel == Some(true) ==> t[i].cause.Some?
    ensures i + 1 < |t| && t[i + 1].entered > t[i].entered ==> t[i].cause.None?
  {
    RunInv(t, i);
    if i + 1 < |t| {
      assert Next(t[i], t[i + 1]);
    }
  }

  // ---- progress

  function CallerLeft(c: Caller): nat {
    match c
    case Checking => 5
    case InTask => 4
    case TaskOver => 3
    case Waiting => 2
    case Joined => 1
    case Finished => 0
  }

  function WatcherLeft(w: Watcher): nat {
    match w
    case Watching => 4
    case Returned(_) => 3
    case JudgedLost => 2
    case JudgedNormal => 1
    case Reported => 1
    case Sent => 0
  }

  /** The steps that are left to both threads. */
  function Left(s: State): nat {
    CallerLeft(s.caller) + WatcherLeft(s.watcher)
  }

  /** Every step of either thread lowers the bound, so together they make at most nine. */
  lemma StepsRunOut(s: State, e: Event, s': State)
    requires Step(s, e, s')
    ensures if e.CancelParent? then Left(s') == Left(s) else Left(s') < Left(s)
    ensures Left(START) == 9
  {
  }

  /** No deadlock: until the lock is released one of the threads can move (a watch always can end, and so can a callback). */
  lemma NeverStuck(t: seq<State>, i: nat)
    requires Run(t) && i < |t| && !t[i].caller.Finished?
    ensures exists e: Event, s' :: !e.CancelParent? && Step(t[i], e, s')
  {
    RunInv(t, i);
    CanMove(t[i]);
  }

  lemma CanMove(s: State)
    requires Inv(s) && !s.caller.Finished?
    ensures exists e: Event, s' :: !e.CancelParent? && Step(s, e, s')
  {
    match s.caller {
      case Checking => assert Step(s, Check, if s.cause.Some? then s.(caller := TaskOver, err := AsSet(s.cause)) else s.(caller := InTask, ran := true, entered := s.entered + 1));
      case InTask => assert Step(s, EndTask(Succeeded), s.(caller := TaskOver, taskEnd := Some(Succeeded), err := {}));
      case TaskOver => assert Step(s, Stop, s.(caller := Waiting, stopped := true));
      case Joined => assert Step(s, Release(true), s.(caller := Finished, releases := s.releases + 1, released := Some(true), err := s.err + {}));
      case Waiting =>
        match s.watcher {
          case Watching => assert Step(s, EndWatch(WithCancellation), s.(watcher := Returned(WithCancellation)));
          case Returned(end) => assert Step(s, Judge, s.(watcher := if s.stopped && end.WithCancellation? then JudgedNormal else JudgedLost));
          case JudgedNormal => assert Step(s, Send, s.(watcher := Sent, channel := Some(false)));
          case JudgedLost => assert Step(s, CancelWork, Cancelled(s, LockLost).(watcher := Reported));
          case Reported => assert Step(s, Send, s.(watcher := Sent, channel := Some(true)));
          case Sent => assert Step(s, Receive, s.(caller := Joined, err := s.err + (if s.channel.value then {LockLost} else {}) + AsSet(s.cause), causeAtJoin := s.cause));
        }
    }
  }

  /** The watch reports a cancellation only when it was stopped, as that of the Postgres lease does. */
  ghost predicate CancelsOnlyWhenStopped(t: seq<State>) {
    forall i | 0 <= i < |t| - 1 && Step(t[i], EndWatch(WithCancellation), t[i + 1]) :: t[i].stopped
  }

  /** A watch that has returned ended in the step before or earlier, as its end says. */
  lemma {:induction false} EndOf(t: seq<State>, i: nat) returns (m: nat)
    requires Run(t) && i < |t| && t[i].watcher.Returned?
    ensures m < i && Step(t[m], EndWatch(t[i].watcher.end), t[m + 1])
    ensures t[m].stopped ==> t[i].stopped
  {
    hide Step;
    if i == 0 {
      NotReturnedAtStart();
    } else {
      assert Next(t[i - 1], t[i]);
      var e :| Step(t[i - 1], e, t[i]);
      ReturnedBy(t[i - 1], e, t[i]);
      if t[i - 1].watcher.Returned? {
        m := EndOf(t, i - 1);
      } else {
        m := i - 1;
      }
    }
  }

  lemma NotReturnedAtStart()
    ensures !START.watcher.Returned?
  {
  }

  lemma ReturnedBy(s: State, e: Event, s': State)
    requires Step(s, e, s') && s'.watcher.Returned?
    ensures s.watcher == s'.watcher || e == EndWatch(s'.watcher.end)
    ensures s.watcher.Returned? ==> s.watcher == s'.watcher
    ensures s.stopped ==> s'.stopped
  {
  }

  /** The watch ended in another way than by cancellation. */
  ghost predicate EndsAbnormally(t: seq<State>, m: nat)
    requires m + 1 < |t|
  {
    Step(t[m], EndWatch(WithNil), t[m + 1]) || Step(t[m], EndWatch(WithFailure), t[m + 1])
  }

  /** For such a watch no end is swallowed: the caller learns of a loss if and only if the watch ended in another way than by cancellation. */
  lemma HonestWatchIsReportedExactly(t: seq<State>, j: nat)
    requires Run(t) && j < |t| && t[j].caller.Finished? && CancelsOnlyWhenStopped(t)
    ensures LockLost in t[j].err <==> exists m | 0 <= m < j :: EndsAbnormally(t, m)
  {
    var i := FinishedIsJudged(t, j);
    var n := EndOf(t, i);
    if !t[i].watcher.end.WithCancellation? {
      assert EndsAbnormally(t, n);
    }
    if m :| 0 <= m < j && EndsAbnormally(t, m) {
      AbnormalEndLoses(t, m);
      LossSticks(t, m + 1, j);
      RunInv(t, j);
    }
  }

  lemma AbnormalEndLoses(t: seq<State>, m: nat)
    requires m + 1 < |t| && EndsAbnormally(t, m)
    ensures Losing(t[m + 1])
  {
  }

  /** Neither thread can move: only a cancellation from outside is left. */
  ghost predicate Stuck(s: State) {
    forall e: Event, s' :: Step(s, e, s') ==> e.CancelParent?
  }

  /** Exactly one release: a run that neither thread can continue has released the lock once, after everything else. */
  lemma StuckMeansReleasedOnce(t: seq<State>, i: nat)
    requires Run(t) && i < |t|
    ensures Stuck(t[i]) <==> t[i].caller.Finished?
    ensures Stuck(t[i]) ==> t[i].releases == 1 && t[i].watcher.Sent? && (t[i].ran ==> t[i].taskEnd.Some?)
  {
    RunInv(t, i);
    hide Run;
    if t[i].caller.Finished? {
      FinishedIsStuck(t[i]);
    } else {
      CanMove(t[i]);
    }
  }

  lemma FinishedIsStuck(s: State)
    requires Inv(s) && s.caller.Finished?
    ensures Stuck(s)
  {
  }
}
