/** Lock names, the chain of locks held by nested tasks, and the wait between attempts to acquire one. */
module LockRunner {
  import opened Wrappers
  import opened Arithmetic

  datatype Error = InvalidKey | InvalidTask | Cancelled | Reentrant | Unavailable | InvalidOptions

  /** Nanoseconds, as the machine keeps them. */
  newtype Duration = x: int | -0x8000_0000_0000_0000 <= x < 0x8000_0000_0000_0000

  const MAX_NAMESPACE: nat := 64
  const MAX_KEY: nat := 256
  const MILLISECOND: Duration := 1_000_000
  const SECOND: Duration := 1_000_000_000

  // ---- options

  datatype Options = Options(namespace: string, acquireTimeout: Duration, releaseTimeout: Duration, retryMin: Duration, retryMax: Duration)

  predicate ValidChar(c: char) {
    'a' <= c <= 'z' || 'A' <= c <= 'Z' || '0' <= c <= '9' || c == ':' || c == '_' || c == '-' || c == '.'
  }

  predicate ValidName(s: string, max: nat) {
    0 < |s| <= max && forall c | c in s :: ValidChar(c)
  }

  method ValidKey(key: string, max: nat) returns (valid: bool)
    ensures valid <==> ValidName(key, max)
  {
    if |key| == 0 || |key| > max {
      return false;
    }
    for i := 0 to |key|
      invariant forall k | 0 <= k < i :: ValidChar(key[k])
    {
      if !ValidChar(key[i]) {
        assert key[i] in key;
        return false;
      }
    }
    return true;
  }

  /** What the constructor guarantees about the options of a runner. */
  predicate ValidOptions(o: Options) {
    && ValidName(o.namespace, MAX_NAMESPACE) && ':' !in o.namespace
    && o.acquireTimeout > 0 && o.releaseTimeout > 0
    && MILLISECOND <= o.retryMin <= o.retryMax
  }

  function OrDefault(given: Duration, default: Duration): Duration {
    if given == 0 then default else given
  }

  method New(given: Options) returns (r: Result<Options, Error>)
    ensures r.Ok? ==> ValidOptions(r.value) && r.value.namespace == given.namespace
    ensures r.Ok? <==> ValidOptions(Options(given.namespace, OrDefault(given.acquireTimeout, 5 * SECOND), OrDefault(given.releaseTimeout, 5 * SECOND),
                                            OrDefault(given.retryMin, 50 * MILLISECOND), OrDefault(given.retryMax, SECOND)))
  {
    var valid := ValidKey(given.namespace, MAX_NAMESPACE);
    if !valid || ':' in given.namespace {
      return Err(InvalidOptions);
    }
    var o := given;
    if o.acquireTimeout == 0 {
      o := o.(acquireTimeout := 5 * SECOND);
    }
    if o.releaseTimeout == 0 {
      o := o.(releaseTimeout := 5 * SECOND);
    }
    if o.retryMin == 0 {
      o := o.(retryMin := 50 * MILLISECOND);
    }
    if o.retryMax == 0 {
      o := o.(retryMax := SECOND);
    }
    if o.acquireTimeout < 0 || o.releaseTimeout < 0 || o.retryMin < MILLISECOND || o.retryMax < o.retryMin {
      return Err(InvalidOptions);
    }
    return Ok(o);
  }

  // ---- the locks held around a task

  /** The context value: the locks that enclose a task, innermost first. */
  datatype Held = Nothing | Holding(name: string, parent: Held)

  function FullName(namespace: string, key: string): string {
    namespace + ":" + key
  }

  function Names(h: Held): set<string> {
    if h.Nothing? then {} else {h.name} + Names(h.parent)
  }

  function Depth(h: Held): nat {
    if h.Nothing? then 0 else 1 + Depth(h.parent)
  }

  /** No two links of the chain have the same name. */
  predicate NoDuplicates(h: Held) {
    h.Holding? ==> h.name !in Names(h.parent) && NoDuplicates(h.parent)
  }

  /** The walk along the chain, which stops at the first link with the name. */
  predicate Found(h: Held, name: string) {
    h.Holding? && (h.name == name || Found(h.parent, name))
  }

  /** The first colon separates the namespace: two full names agree only when both parts do. */
  lemma FullNamesDiffer(n: string, k: string, n': string, k': string)
    requires ':' !in n && ':' !in n'
    ensures FullName(n, k) == FullName(n', k') <==> n == n' && k == k'
  {
    var a, b := FullName(n, k), FullName(n', k');
    if a == b {
      assert a[|n|] == ':' && b[|n'|] == ':';
      assert forall i | 0 <= i < |n| :: a[i] == n[i] && n[i] in n;
      assert forall i | 0 <= i < |n'| :: b[i] == n'[i] && n'[i] in n';
      assert |n| == |n'|;
      assert n == a[..|n|] && n' == b[..|n'|];
      assert k == a[|n| + 1..] && k' == b[|n'| + 1..];
    }
  }

  /** Everything that is checked before a lock is asked for. */
  method Prepare(o: Options, held: Held, key: string, hasTask: bool, cancelled: bool) returns (r: Result<string, Error>)
    ensures r.Ok? <==> ValidName(key, MAX_KEY) && hasTask && !cancelled && !Found(held, FullName(o.namespace, key))
    ensures r.Ok? ==> r.value == FullName(o.namespace, key)
    ensures r == Err(Reentrant) <==> ValidName(key, MAX_KEY) && hasTask && !cancelled && Found(held, FullName(o.namespace, key))
  {
    var valid := ValidKey(key, MAX_KEY);
    if !valid {
      return Err(InvalidKey);
    }
    if !hasTask {
      return Err(InvalidTask);
    }
    if cancelled {
      return Err(Cancelled);
    }
    var name := o.namespace + ":" + key;
    var h := held;
    while h.Holding?
      invariant Found(held, name) <==> Found(h, name)
      decreases h
    {
      if h.name == name {
        return Err(Reentrant);
      }
      h := h.parent;
    }
    return Ok(name);
  }

  // ---- nested calls

  /**
   One call of a runner from inside a callback. `from` says whose context it passes: 0 is the context
   outside all locks, n + 1 the one that call n passed to its callback. The runner's options are those
   of its constructor, and the key is any string.
   */
  datatype Call = Call(from: nat, options: Options, key: string)

  /** Calls in the order in which they are made; each passes a context that exists by then. */
  predicate WellNested(calls: seq<Call>) {
    forall i | 0 <= i < |calls| :: calls[i].from <= i && ValidOptions(calls[i].options)
  }

  /** The chain in a context. A call that is refused enters no callback, so its context is the one it was made in. */
  function Context(calls: seq<Call>, k: nat): Held
    requires WellNested(calls) && k <= |calls|
    decreases k, 0
  {
    if k == 0 then Nothing
    else
      var h := Context(calls, calls[k - 1].from);
      if Enters(calls, k - 1) then Holding(FullName(calls[k - 1].options.namespace, calls[k - 1].key), h) else h
  }

  /** Call i gets past the checks: its key is valid and the walk finds nothing. */
  predicate Enters(calls: seq<Call>, i: nat)
    requires WellNested(calls) && i < |calls|
    decreases i, 1
  {
    ValidName(calls[i].key, MAX_KEY) && !Found(Context(calls, calls[i].from), FullName(calls[i].options.namespace, calls[i].key))
  }

  /** Call i is refused as re-entrant. */
  predicate RefusedAsReentrant(calls: seq<Call>, i: nat)
    requires WellNested(calls) && i < |calls|
  {
    ValidName(calls[i].key, MAX_KEY) && !Enters(calls, i)
  }

  /** Context k lies inside the callback of call j. */
  predicate Inside(calls: seq<Call>, k: nat, j: nat)
    requires WellNested(calls) && k <= |calls| && j < |calls|
    decreases k
  {
    k > 0 && ((j == k - 1 && Enters(calls, j)) || Inside(calls, calls[k - 1].from, j))
  }

  lemma {:induction false} FoundIsNamed(h: Held, name: string)
    ensures Found(h, name) <==> name in Names(h)
  {
    if h.Holding? {
      FoundIsNamed(h.parent, name);
    }
  }

  /** However calls nest, and whichever contexts they pass, no chain holds a name twice: it is as long as its set of names. */
  lemma {:induction false} NestingHoldsEachNameOnce(calls: seq<Call>, k: nat)
    requires WellNested(calls) && k <= |calls|
    ensures NoDuplicates(Context(calls, k)) && |Names(Context(calls, k))| == Depth(Context(calls, k))
    decreases k
  {
    if k > 0 {
      var c := calls[k - 1];
      NestingHoldsEachNameOnce(calls, c.from);
      FoundIsNamed(Context(calls, c.from), FullName(c.options.namespace, c.key));
    }
  }

  /** The names in a chain are those of the enclosing calls that entered their callbacks. */
  lemma {:induction false} NamesOfEnclosing(calls: seq<Call>, k: nat, name: string)
    requires WellNested(calls) && k <= |calls|
    ensures Found(Context(calls, k), name) <==>
            exists j | 0 <= j < |calls| :: Inside(calls, k, j) && name == FullName(calls[j].options.namespace, calls[j].key)
    decreases k
  {
    if k > 0 {
      NamesOfEnclosing(calls, calls[k - 1].from, name);
      if Enters(calls, k - 1) && name == FullName(calls[k - 1].options.namespace, calls[k - 1].key) {
        assert Inside(calls, k, k - 1);
      } else if j :| 0 <= j < |calls| && Inside(calls, calls[k - 1].from, j) && name == FullName(calls[j].options.namespace, calls[j].key) {
        assert Inside(calls, k, j);
      }
    }
  }

  /** A call is refused as re-entrant if and only if a call for the same namespace and key was accepted further out. */
  lemma RefusedExactlyWhenHeld(calls: seq<Call>, i: nat)
    requires WellNested(calls) && i < |calls| && ValidName(calls[i].key, MAX_KEY)
    ensures RefusedAsReentrant(calls, i) <==>
            exists j | 0 <= j < |calls| :: Inside(calls, calls[i].from, j) && SameLock(calls[i], calls[j])
  {
    var c := calls[i];
    var name := FullName(c.options.namespace, c.key);
    NamesOfEnclosing(calls, c.from, name);
    forall j | 0 <= j < |calls|
      ensures name == FullName(calls[j].options.namespace, calls[j].key) <==> SameLock(c, calls[j])
    {
      FullNamesDiffer(c.options.namespace, c.key, calls[j].options.namespace, calls[j].key);
    }
  }

  predicate SameLock(a: Call, b: Call) {
    a.options.namespace == b.options.namespace && a.key == b.key
  }

  /** Every enclosing call was made before, so a call is only ever refused because of an earlier one. */
  lemma {:induction false} EnclosingIsEarlier(calls: seq<Call>, k: nat, j: nat)
    requires WellNested(calls) && k <= |calls| && j < |calls| && Inside(calls, k, j)
    ensures j < k && Enters(calls, j)
    decreases k
  {
    if !(j == k - 1 && Enters(calls, j)) {
      EnclosingIsEarlier(calls, calls[k - 1].from, j);
    }
  }

  // ---- waiting for a busy lock

  function Doubled(d: int, k: nat): int {
    if k == 0 then d else 2 * Doubled(d, k - 1)
  }

  lemma {:induction false} DoubledIsProduct(d: int, k: nat)
    ensures Doubled(d, k) == d * Power(k)
    ensures d >= 0 ==> Doubled(d, k) >= d
  {
    if k > 0 {
      DoubledIsProduct(d, k - 1);
      Reassociate(d, Power(k - 1));
    }
  }

  lemma Reassociate(d: int, p: int)
    ensures 2 * (d * p) == d * (2 * p)
  {
  }

  /** The delay after k busy attempts: doubled each time, up to the maximum. */
  function Delay(o: Options, k: nat): int {
    Min(Doubled(o.retryMin as int, k), o.retryMax as int)
  }

  lemma DelayIsExact(o: Options, k: nat)
    ensures Delay(o, k) == Min(o.retryMin as int * Power(k), o.retryMax as int)
  {
    DoubledIsProduct(o.retryMin as int, k);
  }

  /** What one attempt to acquire the lock, and the sleep after a busy one, came to. */
  datatype Attempt = Busy(jitter: Duration, cancelled: bool) | Acquired | Failed

  datatype Outcome = Runs | Gives(error: Error) | StillWaiting

  predicate SleepOk(o: Options, k: nat, sleep: Duration) {
    Delay(o, k) / 2 <= sleep as int <= 2 * (Delay(o, k) / 2) <= Delay(o, k)
  }

  /** The lock is busy and nobody cancels the wait. */
  predicate Quiet(a: Attempt) {
    a.Busy? && !a.cancelled
  }

  /** n is the index of the first answer that is not quiet, or the length when all are. */
  predicate FirstLoud(attempts: seq<Attempt>, n: nat) {
    n <= |attempts| && (forall k | 0 <= k < n :: Quiet(attempts[k])) && (n < |attempts| ==> !Quiet(attempts[n]))
  }

  /** What the first answer that is not quiet decides. */
  function Decided(attempts: seq<Attempt>, n: nat): Outcome
    requires n <= |attempts|
  {
    if n == |attempts| then StillWaiting
    else match attempts[n]
      case Acquired => Runs
      case Failed => Gives(Unavailable)
      case Busy(_, _) => Gives(Cancelled)
  }

  /**
   The acquisition loop. `attempts` are the answers it would get, and the jitter is whatever the
   random source returns below its bound. The first answer that is not quiet decides; before it the
   loop slept once per answer, and a cancelled sleep is the last. No computation leaves the 64-bit range.
   */
  method Acquire(o: Options, attempts: seq<Attempt>) returns (outcome: Outcome, sleeps: seq<Duration>, ghost n: nat)
    requires ValidOptions(o)
    requires forall k | 0 <= k < |attempts| && attempts[k].Busy? :: 0 <= attempts[k].jitter as int <= Delay(o, k) / 2
    ensures FirstLoud(attempts, n) && outcome == Decided(attempts, n)
    ensures |sleeps| == if outcome == Gives(Cancelled) then n + 1 else n
    ensures forall k | 0 <= k < |sleeps| :: k < |attempts| && attempts[k].Busy? && SleepOk(o, k, sleeps[k])
                                            && sleeps[k] as int == Delay(o, k) / 2 + attempts[k].jitter as int
  {
    sleeps := [];
    var delay := o.retryMin;
    for i := 0 to |attempts|
      invariant |sleeps| == i
      invariant delay as int == Delay(o, i) && MILLISECOND <= delay <= o.retryMax
      invariant forall k | 0 <= k < i :: Quiet(attempts[k]) && SleepOk(o, k, sleeps[k]) && sleeps[k] as int == Delay(o, k) / 2 + attempts[k].jitter as int
    {
      n := i;
      match attempts[i] {
        case Failed => return Gives(Unavailable), sleeps, n;
        case Acquired => return Runs, sleeps, n;
        case Busy(jitter, cancelled) =>
          sleeps := sleeps + [delay / 2 + jitter];
          if cancelled {
            return Gives(Cancelled), sleeps, n;
          }
          DelayDoubles(o, i);
          if delay <= o.retryMax / 2 {
            delay := delay * 2;
          } else {
            delay := o.retryMax;
          }
      }
    }
    n := |attempts|;
    return StillWaiting, sleeps, n;
  }

  /** One step of the delay, and why the comparison with half the maximum is exact. */
  lemma DelayDoubles(o: Options, k: nat)
    requires ValidOptions(o)
    ensures Delay(o, k + 1) == if Delay(o, k) <= o.retryMax as int / 2 then 2 * Delay(o, k) else o.retryMax as int
    ensures o.retryMin as int <= Delay(o, k) <= Delay(o, k + 1) <= o.retryMax as int
  {
    DoubledIsProduct(o.retryMin as int, k);
  }

  function Total(sleeps: seq<Duration>): int {
    if sleeps == [] then 0 else Total(sleeps[..|sleeps| - 1]) + sleeps[|sleeps| - 1] as int
  }

  /** The least total sleep of n attempts: half of every delay. */
  function LeastTotal(o: Options, n: nat): int {
    if n == 0 then 0 else LeastTotal(o, n - 1) + Delay(o, n - 1) / 2
  }

  /** The total wait after n busy attempts lies between the sum of the halved delays and twice that sum. */
  lemma {:induction false} TotalWait(o: Options, sleeps: seq<Duration>)
    requires forall k | 0 <= k < |sleeps| :: SleepOk(o, k, sleeps[k])
    ensures LeastTotal(o, |sleeps|) <= Total(sleeps) <= 2 * LeastTotal(o, |sleeps|)
  {
    if sleeps != [] {
      var n := |sleeps| - 1;
      TotalWait(o, sleeps[..n]);
      assert SleepOk(o, n, sleeps[n]);
    }
  }

  /** Both bounds in the options alone: n halves of the shortest delay, and n times the longest. */
  lemma {:induction false} TotalWaitByOptions(o: Options, n: nat)
    requires ValidOptions(o)
    ensures n * (o.retryMin as int / 2) <= LeastTotal(o, n)
    ensures 2 * LeastTotal(o, n) <= n * o.retryMax as int
  {
    if n > 0 {
      TotalWaitByOptions(o, n - 1);
      DelayDoubles(o, n - 1);
      OneMore(n - 1, o.retryMin as int / 2);
      OneMore(n - 1, o.retryMax as int);
    }
  }

  lemma OneMore(n: int, d: int)
    ensures (n + 1) * d == n * d + d
  {
  }

  /** While the maximum is not reached the delays double, and so does the least total plus one half-delay. */
  lemma {:induction false} DoublingTotal(o: Options, n: nat)
    requires ValidOptions(o) && o.retryMin % 2 == 0
    requires n > 0 ==> Doubled(o.retryMin as int, n - 1) <= o.retryMax as int
    ensures 2 * LeastTotal(o, n) == Doubled(o.retryMin as int, n) - o.retryMin as int
    ensures Doubled(o.retryMin as int, n) % 2 == 0
  {
    if n > 0 {
      var d := o.retryMin as int;
      if n > 1 {
        DoubledIsProduct(d, n - 2);
      }
      DoublingTotal(o, n - 1);
      assert Doubled(d, n) == 2 * Doubled(d, n - 1);
      assert Delay(o, n - 1) == Doubled(d, n - 1);
    }
  }
}
