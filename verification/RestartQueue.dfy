/**
 The coalesced restart: many requests, one queued restart. The flag, the mutex and the goroutines are
 a state machine whose steps interleave in every possible way; sleeping is a step of its own, so a
 delay of any length is covered.
 */
module RestartQueue {

  /** Where a caller stands. A reactive restart goes through all of these; a direct one starts by
      taking the mutex and does not touch the flag. */
  datatype Phase = Starting | Sleeping | Locking | Locked | Cleared | Restarting | Done

  datatype Thread = Thread(reactive: bool, phase: Phase)

  datatype Event = Requested | Began

  datatype State = State(queued: bool, locked: bool, threads: seq<Thread>, history: seq<Event>)

  const IDLE: State := State(false, false, [], [])

  datatype Step = Request | Restart | Run(t: nat)

  predicate Enabled(s: State, step: Step) {
    match step
    case Request => true
    case Restart => true
    case Run(t) =>
      && t < |s.threads| && s.threads[t].phase != Done
      && (s.threads[t].phase == Locking ==> !s.locked)
  }

  function Moved(s: State, t: nat, phase: Phase): State
    requires t < |s.threads|
  {
    s.(threads := s.threads[t := s.threads[t].(phase := phase)])
  }

  function Do(s: State, step: Step): State
    requires Enabled(s, step)
  {
    match step
    case Request =>
      // the compare-and-swap: whoever finds the flag down raises it and owes a goroutine
      var asked := s.(history := s.history + [Requested]);
      if s.queued then asked else asked.(queued := true, threads := s.threads + [Thread(true, Starting)])
    case Restart => s.(threads := s.threads + [Thread(false, Locking)])
    case Run(t) =>
      match s.threads[t].phase
      case Starting => Moved(s, t, Sleeping)
      case Sleeping => Moved(s, t, Locking)
      case Locking => Moved(s, t, Locked).(locked := true)
      case Locked =>
        if s.threads[t].reactive then Moved(s, t, Cleared).(queued := false)
        else Moved(s, t, Restarting).(history := s.history + [Began])
      case Cleared => Moved(s, t, Restarting).(history := s.history + [Began])
      case Restarting => Moved(s, t, Done).(locked := false)
  }

  ghost predicate IsRun(s: State, steps: seq<Step>, end: State)
    decreases |steps|
  {
    if steps == [] then end == s
    else Enabled(s, steps[0]) && IsRun(Do(s, steps[0]), steps[1..], end)
  }

  // ----- what every state keeps

  predicate Queued(th: Thread) {
    th.reactive && (th.phase == Starting || th.phase == Sleeping || th.phase == Locking || th.phase == Locked)
  }

  predicate Holding(th: Thread) {
    th.phase == Locked || th.phase == Cleared || th.phase == Restarting
  }

  /** A reactive restart that has not begun. */
  predicate Pending(th: Thread) {
    Queued(th) || (th.reactive && th.phase == Cleared)
  }

  /** The flag is up exactly while one reactive restart is queued, and there is never a second one. */
  ghost predicate FlagOk(s: State) {
    && (forall t | 0 <= t < |s.threads| && Queued(s.threads[t]) :: s.queued)
    && (s.queued ==> SomeQueued(s))
    && (forall t, u | 0 <= t < u < |s.threads| :: !(Queued(s.threads[t]) && Queued(s.threads[u])))
  }

  /** The mutex is taken exactly while one thread is inside, and there is never a second one. */
  ghost predicate LockOk(s: State) {
    && (forall t | 0 <= t < |s.threads| && Holding(s.threads[t]) :: s.locked)
    && (s.locked ==> SomeHolding(s))
    && (forall t, u | 0 <= t < u < |s.threads| :: !(Holding(s.threads[t]) && Holding(s.threads[u])))
  }

  ghost predicate Served(s: State, p: nat) {
    exists q :: p < q < |s.history| && s.history[q] == Began
  }

  ghost predicate SomePending(s: State) {
    exists t :: 0 <= t < |s.threads| && Pending(s.threads[t])
  }

  /** No request is lost: a restart began after it, or one that has not begun is on its way. */
  ghost predicate Covered(s: State) {
    forall p: nat | p < |s.history| && s.history[p] == Requested :: Served(s, p) || SomePending(s)
  }

  ghost predicate Inv(s: State) {
    FlagOk(s) && LockOk(s) && Covered(s)
  }

  ghost predicate SomeQueued(s: State) {
    exists t :: 0 <= t < |s.threads| && Queued(s.threads[t])
  }

  ghost predicate SomeHolding(s: State) {
    exists t :: 0 <= t < |s.threads| && Holding(s.threads[t])
  }

  lemma QueuedKept(s: State, step: Step)
    requires FlagOk(s) && Enabled(s, step) && Do(s, step).queued
    ensures SomeQueued(Do(s, step))
  {
    var s' := Do(s, step);
    if s.queued {
      var t :| 0 <= t < |s.threads| && Queued(s.threads[t]);
      assert Queued(s'.threads[t]);
    } else {
      assert Queued(s'.threads[|s.threads|]);
    }
  }

  lemma QueuedRaise(s: State, step: Step, t: int)
    requires FlagOk(s) && Enabled(s, step) && 0 <= t < |Do(s, step).threads| && Queued(Do(s, step).threads[t])
    ensures Do(s, step).queued
  {
    if t < |s.threads| {
      assert Queued(s.threads[t]) ==> s.queued;
      if step.Run? && step.t != t && Queued(s.threads[step.t]) {
        OneOfTwo(s, t, step.t);
      }
    }
  }

  lemma OneOfTwo(s: State, t: int, u: int)
    requires FlagOk(s) && 0 <= t < |s.threads| && 0 <= u < |s.threads| && t != u
    ensures !(Queued(s.threads[t]) && Queued(s.threads[u]))
  {
    if t < u {
      assert !(Queued(s.threads[t]) && Queued(s.threads[u]));
    } else {
      assert !(Queued(s.threads[u]) && Queued(s.threads[t]));
    }
  }

  lemma OneQueued(s: State, step: Step, t: int, u: int)
    requires FlagOk(s) && Enabled(s, step) && 0 <= t < u < |Do(s, step).threads|
    ensures !(Queued(Do(s, step).threads[t]) && Queued(Do(s, step).threads[u]))
  {
    var s' := Do(s, step);
    if u < |s.threads| {
      OneOfTwo(s, t, u);
      assert step.Run? && t != step.t ==> s'.threads[t] == s.threads[t];
      assert step.Run? && u != step.t ==> s'.threads[u] == s.threads[u];
    } else {
      assert s'.threads[t] == s.threads[t];
      assert Queued(s.threads[t]) ==> s.queued;
    }
  }

  lemma FlagKept(s: State, step: Step)
    requires FlagOk(s) && Enabled(s, step)
    ensures FlagOk(Do(s, step))
  {
    var s' := Do(s, step);
    if s'.queued {
      QueuedKept(s, step);
    }
    forall t | 0 <= t < |s'.threads| && Queued(s'.threads[t]) ensures s'.queued {
      QueuedRaise(s, step, t);
    }
    forall t, u | 0 <= t < u < |s'.threads| ensures !(Queued(s'.threads[t]) && Queued(s'.threads[u])) {
      OneQueued(s, step, t, u);
    }
  }

  lemma HoldingKept(s: State, step: Step)
    requires LockOk(s) && Enabled(s, step) && Do(s, step).locked
    ensures SomeHolding(Do(s, step))
  {
    var s' := Do(s, step);
    if s.locked {
      var t :| 0 <= t < |s.threads| && Holding(s.threads[t]);
      assert Holding(s'.threads[t]);
    } else {
      assert step.Run? && Holding(s'.threads[step.t]);
    }
  }

  lemma HoldersLock(s: State, step: Step, t: int)
    requires LockOk(s) && Enabled(s, step) && 0 <= t < |Do(s, step).threads| && Holding(Do(s, step).threads[t])
    ensures Do(s, step).locked
  {
    if t < |s.threads| && Holding(s.threads[t]) {
      assert s.locked;
    }
  }

  lemma OneHolder(s: State, step: Step, t: int, u: int)
    requires LockOk(s) && Enabled(s, step) && 0 <= t < u < |Do(s, step).threads|
    ensures !(Holding(Do(s, step).threads[t]) && Holding(Do(s, step).threads[u]))
  {
    var s' := Do(s, step);
    if step.Run? {
      assert t != step.t ==> s'.threads[t] == s.threads[t];
      assert u != step.t ==> s'.threads[u] == s.threads[u];
      assert !(Holding(s.threads[t]) && Holding(s.threads[u]));
    }
  }

  lemma LockKept(s: State, step: Step)
    requires LockOk(s) && Enabled(s, step)
    ensures LockOk(Do(s, step))
  {
    var s' := Do(s, step);
    if s'.locked {
      HoldingKept(s, step);
    }
    forall t | 0 <= t < |s'.threads| && Holding(s'.threads[t]) ensures s'.locked {
      HoldersLock(s, step, t);
    }
    forall t, u | 0 <= t < u < |s'.threads| ensures !(Holding(s'.threads[t]) && Holding(s'.threads[u])) {
      OneHolder(s, step, t, u);
    }
  }

  /** A restart that begins serves every request made before it. */
  lemma BeginServes(s: State, s': State, p: nat)
    requires s'.history == s.history + [Began] && 0 <= p < |s.history|
    ensures Served(s', p)
  {
    assert s'.history[|s.history|] == Began;
  }

  lemma StillServed(s: State, s': State, p: nat)
    requires Served(s, p) && |s.history| <= |s'.history| && s'.history[..|s.history|] == s.history
    ensures Served(s', p)
  {
    var q :| p < q < |s.history| && s.history[q] == Began;
    assert s'.history[q] == s'.history[..|s.history|][q];
  }

  lemma StillPending(s: State, step: Step)
    requires SomePending(s) && Enabled(s, step) && Do(s, step).history != s.history + [Began]
    ensures SomePending(Do(s, step))
  {
    var t :| 0 <= t < |s.threads| && Pending(s.threads[t]);
    assert Pending(Do(s, step).threads[t]);
  }

  lemma RequestIsPending(s: State)
    requires FlagOk(s)
    ensures SomePending(Do(s, Request))
  {
    var s' := Do(s, Request);
    if s.queued {
      var t :| 0 <= t < |s.threads| && Queued(s.threads[t]);
      assert Pending(s'.threads[t]);
    } else {
      assert Pending(s'.threads[|s.threads|]);
    }
  }

  lemma CoverKept(s: State, step: Step)
    requires Inv(s) && Enabled(s, step)
    ensures Covered(Do(s, step))
  {
    var s' := Do(s, step);
    forall p: nat | p < |s'.history| && s'.history[p] == Requested ensures Served(s', p) || SomePending(s') {
      if s'.history == s.history + [Began] {
        BeginServes(s, s', p);
      } else if step == Request {
        RequestIsPending(s);
      } else if Served(s, p) {
        StillServed(s, s', p);
      } else {
        StillPending(s, step);
      }
    }
  }

  /** Every interleaving, from the start, of requests, direct restarts and goroutine steps. */
  lemma {:induction false} EveryRunKeeps(s: State, steps: seq<Step>, end: State)
    requires Inv(s) && IsRun(s, steps, end)
    ensures Inv(end)
    decreases |steps|
  {
    if steps != [] {
      FlagKept(s, steps[0]);
      LockKept(s, steps[0]);
      CoverKept(s, steps[0]);
      EveryRunKeeps(Do(s, steps[0]), steps[1..], end);
    }
  }

  /** At most one reactive restart is queued, at most one thread restarts, and no request is lost. */
  lemma NothingIsLost(steps: seq<Step>, end: State)
    requires IsRun(IDLE, steps, end)
    ensures forall t, u | 0 <= t < u < |end.threads| :: !(Queued(end.threads[t]) && Queued(end.threads[u]))
    ensures forall t, u | 0 <= t < u < |end.threads| :: !(Holding(end.threads[t]) && Holding(end.threads[u]))
    ensures forall p: nat | p < |end.history| && end.history[p] == Requested :: Served(end, p) || SomePending(end)
  {
    EveryRunKeeps(IDLE, steps, end);
  }

  // ----- every restart on its way does begin

  function Left(phase: Phase): nat {
    match phase
    case Starting => 6
    case Sleeping => 5
    case Locking => 4
    case Locked => 3
    case Cleared => 2
    case Restarting => 1
    case Done => 0
  }

  /** How many steps the threads can still take at most. */
  function Work(threads: seq<Thread>): nat {
    if threads == [] then 0 else Left(threads[0].phase) + Work(threads[1..])
  }

  lemma {:induction false} WorkOfUpdate(threads: seq<Thread>, t: nat, th: Thread)
    requires t < |threads|
    ensures Work(threads[t := th]) == Work(threads) - Left(threads[t].phase) + Left(th.phase)
    decreases |threads|
  {
    var after := threads[t := th];
    if t == 0 {
      assert after[1..] == threads[1..];
    } else {
      assert after[1..] == threads[1..][t - 1 := th];
      WorkOfUpdate(threads[1..], t - 1, th);
    }
  }

  lemma RunWorks(s: State, t: nat)
    requires Enabled(s, Run(t))
    ensures Work(Do(s, Run(t)).threads) < Work(s.threads)
  {
    var s' := Do(s, Run(t));
    WorkOfUpdate(s.threads, t, s'.threads[t]);
    assert s'.threads == s.threads[t := s'.threads[t]];
  }

  ghost predicate Stuck(s: State) {
    forall t: nat :: !Enabled(s, Run(t))
  }

  /** Threads never wait for each other forever: if none can move, all are done. */
  lemma StuckIsDone(s: State)
    requires Inv(s) && Stuck(s)
    ensures forall t | 0 <= t < |s.threads| :: s.threads[t].phase == Done
  {
    if s.locked {
      var h :| 0 <= h < |s.threads| && Holding(s.threads[h]);
      assert Enabled(s, Run(h));
    }
    forall t | 0 <= t < |s.threads| ensures s.threads[t].phase == Done {
      assert !Enabled(s, Run(t));
    }
  }

  lemma {:induction false} SchedulesEnd(s: State, steps: seq<Step>, end: State)
    requires IsRun(s, steps, end) && forall i | 0 <= i < |steps| :: steps[i].Run?
    ensures |steps| + Work(end.threads) <= Work(s.threads)
    decreases |steps|
  {
    if steps != [] {
      RunWorks(s, steps[0].t);
      SchedulesEnd(Do(s, steps[0]), steps[1..], end);
    }
  }

  /** With no new request, every schedule ends within the work that is left, and whenever it can go
      no further the flag and the mutex are down and a restart has begun after every request. */
  lemma EveryRequestIsServed(steps: seq<Step>, s: State, more: seq<Step>, end: State)
    requires IsRun(IDLE, steps, s) && IsRun(s, more, end) && forall i | 0 <= i < |more| :: more[i].Run?
    ensures |more| <= Work(s.threads)
    ensures Stuck(end) ==> !end.queued && !end.locked
    ensures Stuck(end) ==> forall p: nat | p < |end.history| && end.history[p] == Requested :: Served(end, p)
  {
    EveryRunKeeps(IDLE, steps, s);
    EveryRunKeeps(s, more, end);
    SchedulesEnd(s, more, end);
    if Stuck(end) {
      StuckIsDone(end);
    }
  }

  /** A burst of requests starts at most one goroutine. */
  lemma {:induction false} BurstIsOne(s: State, steps: seq<Step>, end: State)
    requires IsRun(s, steps, end) && forall i | 0 <= i < |steps| :: steps[i] == Request
    ensures |end.threads| == |s.threads| + if steps != [] && !s.queued then 1 else 0
    ensures |end.history| == |s.history| + |steps|
    decreases |steps|
  {
    if steps != [] {
      BurstIsOne(Do(s, Request), steps[1..], end);
    }
  }
}
