/**
 What else the pool promises: a batch submitted before its workers start is signalled complete once, a
 stop always terminates, no call gets stuck, and a reset leads back to the initial state.
 */
module MuleStop {
  import opened Basics
  import opened Tally
  import opened MuleModel
  import opened MuleClaims
  import opened MuleLifecycle
  import opened MuleFailures
  import opened MuleInvariant

  // ----- one completion signal

  /** The worker has found itself last and will signal the dispatcher. */
  function Signalling(w: Worker): nat {
    if w.Signal? || (w.CheckLast? && w.processed + 1 == w.queued) then 1 else 0
  }

  /** Early, and before anything of the batch has been claimed. */
  predicate Fresh(s: State, e: Event) {
    Early(s, e) && (e.Submit? ==> s.pool.log.claims == [])
  }

  /** The batch has been signalled, or is about to be, exactly when it is complete. */
  ghost predicate SignalledOnce(s: State) {
    !Storing(s.client) ==>
      s.pool.log.signals + Sum(s.workers, Signalling) == Bit(s.pool.queued > 0 && s.pool.processed == s.pool.queued)
  }

  lemma InitSignalled(n: nat)
    ensures SignalledOnce(Init(n))
  {
    SumZero(Init(n).workers, Signalling);
  }

  lemma WorkerKeepsSignalled(s: State, t: nat)
    requires Claimed(s) && Draining(s) && SignalledOnce(s) && Enabled(s, WorkerStep(t))
    ensures SignalledOnce(Next(s, WorkerStep(t)))
  {
    var w, a := s.workers[t], WorkerAct(s.pool, t, s.workers[t]);
    assert !Resetting(s.client) && DrainOk(s.pool, w);
    SumUpdate(s.workers, t, a.w, Signalling);
    SumAtLeast(s.workers, t, Busy);
    SumAtLeast(s.workers, t, Signalling);
  }

  lemma ClientKeepsSignalled(s: State)
    requires Claimed(s) && Lifecycle(s) && SignalledOnce(s) && ClientCan(s)
    ensures SignalledOnce(ClientAct(s))
  {
    if ChangesWorkers(s.client) {
      if s.client.i < |s.workers| {
        SumUpdate(s.workers, s.client.i, if s.client.Create? then Starting else Absent, Signalling);
      }
    } else if Resets(s.client) {
      SumZero(s.workers, Signalling);
    } else {
      OtherClientStep(s);
    }
  }

  lemma StepKeepsSignalled(s: State, e: Event)
    requires Claimed(s) && Lifecycle(s) && Draining(s) && SignalledOnce(s) && Enabled(s, e) && Fresh(s, e)
    ensures SignalledOnce(Next(s, e))
  {
    match e
    case WorkerStep(t) => WorkerKeepsSignalled(s, t);
    case ClientStep => ClientKeepsSignalled(s);
    case Submit(n) => SumZero(s.workers, Signalling);
      SumZero(s.workers, Busy);
    case _ =>
  }

  ghost predicate FreshRun(s: State, es: seq<Event>)
    requires Legal(s, es)
    decreases |es|
  {
    es != [] ==> Fresh(s, es[0]) && FreshRun(Next(s, es[0]), es[1..])
  }

  lemma {:induction false} RunKeepsSignalled(s: State, es: seq<Event>)
    requires WellDrained(s) && SignalledOnce(s) && Legal(s, es) && FreshRun(s, es)
    ensures var z := Exec(s, es); WellDrained(z) && SignalledOnce(z) && |z.workers| == |s.workers|
    decreases |es|
  {
    if es != [] {
      StepStaysDrained(s, es[0]);
      StepKeepsSignalled(s, es[0]);
      RunKeepsSignalled(Next(s, es[0]), es[1..]);
    }
  }

  /**
   At most one worker ever signals the dispatcher in a batch; when it does, every item has been
   run; and once the workers have been joined exactly one signal has been sent.
   */
  lemma OneSignalPerBatch(s: State)
    requires Claimed(s) && Lifecycle(s) && Draining(s) && SignalledOnce(s) && !Storing(s.client)
    ensures s.pool.log.signals + Sum(s.workers, Signalling) <= 1
    ensures forall t :: 0 <= t < |s.workers| && s.workers[t].Signal? ==>
              s.pool.log.signals == 0 && s.pool.processed == s.pool.processing == s.pool.queued > 0
    ensures s.client == Join(|s.workers|) && s.pool.queued > 0 && |s.workers| > 0 ==> s.pool.log.signals == 1
  {
    forall t | 0 <= t < |s.workers| && s.workers[t].Signal?
      ensures Sum(s.workers, Signalling) >= 1
    {
      SumAtLeast(s.workers, t, Signalling);
    }
    if s.client == Join(|s.workers|) && |s.workers| > 0 {
      StopDrains(s);
      SumZero(s.workers, Signalling);
    }
  }

  /** The same from `mule_init`, for every run whose submits come before a start and before any claim. */
  lemma OneSignalFromInit(n: nat, es: seq<Event>)
    requires Legal(Init(n), es) && FreshRun(Init(n), es) && !Storing(Exec(Init(n), es).client)
    ensures var z := Exec(Init(n), es);
      && z.pool.log.signals + Sum(z.workers, Signalling) == Bit(0 < z.pool.queued == z.pool.processed)
      && z.pool.log.signals + Sum(z.workers, Signalling) <= 1
      && (n > 0 && z.client == Join(n) && z.pool.queued > 0 ==> z.pool.log.signals == 1)
  {
    InitClaimed(n);
    InitDraining(n);
    InitSignalled(n);
    RunKeepsSignalled(Init(n), es);
    OneSignalPerBatch(Exec(Init(n), es));
  }

  // ----- mule_stop terminates

  /** How far a worker still is from its exit, once `running` is 0. */
  function Rank(w: Worker): nat {
    match w
    case Absent => 0
    case Exited => 1
    case Retire => 2
    case Quit => 3
    case CheckRunning => 4
    case LockIdle => 5
    case Claim(_, _) => 6
    case Test(_, _) => 7
    case LoadProcessing(_) => 8
    case LoadQueued => 9
    case WaitDone => 10
    case Waiting => 11
    case BeginWait => 12
    case Signal => 13
    case CheckLast(_, _) => 14
    case Count(_) => 15
    case Kernel(_, _) => 16
    case Starting => 17
  }

  function Times(n: nat, x: nat): nat {
    if x == 0 then 0 else n + Times(n, x - 1)
  }

  /** Iterations that can still succeed or fail: n for each unclaimed item, and the stale claims. */
  function Work(s: State): nat {
    Times(|s.workers|, if s.pool.processing < s.pool.queued then s.pool.queued - s.pool.processing else 0) + Stale(s)
  }

  function Distance(s: State): nat {
    Sum(s.workers, Rank) +
    match s.client
    case StopUnlock => |s.workers| + 2
    case Join(i) => if i <= |s.workers| then |s.workers| + 1 - i else 0
    case _ => 0
  }

  predicate Stopping(s: State) {
    !s.pool.running && (s.client.StopUnlock? || s.client.Join?)
  }

  /** The most steps that can still be made before `mule_stop` returns. */
  function Remaining(s: State): nat {
    Product(Work(s), 18 * |s.workers| + 3);
    Work(s) * (18 * |s.workers| + 3) + Distance(s)
  }

  lemma DistanceBounded(s: State)
    ensures Distance(s) <= 18 * |s.workers| + 2
  {
    SumBounded(s.workers, Rank, 17);
  }

  /** Losing work pays for any growth of the distance. */
  lemma WorkPays(w: nat, d: nat, w': nat, d': nat, k: nat)
    requires d' < k && (w' < w || (w' == w && d' < d))
    ensures w' * k + d' < w * k + d
  {
    if w' < w {
      var x := w - w' - 1;
      Product(x, k);
      assert w * k == w' * k + k + x * k;
    }
  }

  lemma ClaimLosesWork(s: State, t: nat)
    requires Claimed(s) && !Storing(s.client) && FailuresBounded(s) && Enabled(s, WorkerStep(t))
    requires s.workers[t].Claim?
    ensures Work(Next(s, WorkerStep(t))) < Work(s)
  {
    var s' := Next(s, WorkerStep(t));
    if s.workers[t].seen == s.pool.processing {
      assert WorkerOk(s.pool, |s.workers| == 1, s.workers[t]);
      StaleExceptOne(s'.workers, t, s'.pool.processing);
    } else {
      SumUpdate(s.workers, t, s'.workers[t], StaleAt(s.pool.processing));
    }
  }

  lemma RankFalls(s: Pool, t: nat, w: Worker, a: After)
    requires WorkerCan(s, w) && a == WorkerAct(s, t, w) && !w.Claim? && !s.running
    ensures Rank(a.w) < Rank(w) && StaleAt(s.processing)(a.w) <= StaleAt(s.processing)(w)
    ensures a.pool.queued == s.queued && a.pool.processing == s.processing
  {
  }

  /** One worker of lower rank, and no more stale, brings the totals down. */
  lemma TotalsFall(s: State, t: nat, s': State)
    requires t < |s.workers| == |s'.workers| && s'.workers == s.workers[t := s'.workers[t]]
    requires s'.client == s.client
    requires s'.pool.queued == s.pool.queued && s'.pool.processing == s.pool.processing
    requires Rank(s'.workers[t]) < Rank(s.workers[t])
    requires StaleAt(s.pool.processing)(s'.workers[t]) <= StaleAt(s.pool.processing)(s.workers[t])
    ensures Work(s') <= Work(s) && Distance(s') < Distance(s)
  {
    SumUpdate(s.workers, t, s'.workers[t], StaleAt(s.pool.processing));
    SumUpdate(s.workers, t, s'.workers[t], Rank);
  }

  lemma OtherStepsComeCloser(s: State, t: nat)
    requires Stopping(s) && Enabled(s, WorkerStep(t)) && !s.workers[t].Claim?
    ensures var s' := Next(s, WorkerStep(t)); Work(s') <= Work(s) && Distance(s') < Distance(s)
  {
    RankFalls(s.pool, t, s.workers[t], WorkerAct(s.pool, t, s.workers[t]));
    TotalsFall(s, t, Next(s, WorkerStep(t)));
  }

  lemma JoinComesCloser(s: State)
    requires Stopping(s) && Lifecycle(s) && ClientCan(s)
    ensures Work(ClientAct(s)) == Work(s) && Distance(ClientAct(s)) < Distance(s)
  {
    if s.client.Join? && s.client.i < |s.workers| {
      SumUpdate(s.workers, s.client.i, Absent, StaleAt(s.pool.processing));
      SumUpdate(s.workers, s.client.i, Absent, Rank);
    }
  }

  /** Every step of any thread brings `mule_stop` closer to its return. */
  lemma StepsRunOut(s: State, e: Event)
    requires Claimed(s) && Lifecycle(s) && FailuresBounded(s) && Stopping(s)
    requires Enabled(s, e) && !e.Submit?
    ensures Remaining(Next(s, e)) < Remaining(s)
  {
    var s' := Next(s, e);
    if e.WorkerStep? {
      if s.workers[e.t].Claim? {
        ClaimLosesWork(s, e.t);
      } else {
        OtherStepsComeCloser(s, e.t);
      }
    } else {
      JoinComesCloser(s);
    }
    DistanceBounded(s');
    WorkPays(Work(s), Distance(s), Work(s'), Distance(s'), 18 * |s.workers| + 3);
  }

  /** A schedule during which `mule_stop` has not returned and nothing is submitted. */
  ghost predicate StopRun(s: State, es: seq<Event>)
    requires Legal(s, es)
    decreases |es|
  {
    es != [] ==> Stopping(s) && !es[0].Submit? && StopRun(Next(s, es[0]), es[1..])
  }

  /** `mule_stop` returns after a bounded number of steps, whatever the scheduler does. */
  lemma {:induction false} StopTerminates(s: State, es: seq<Event>)
    requires Claimed(s) && Lifecycle(s) && FailuresBounded(s) && Legal(s, es) && StopRun(s, es)
    requires !Storing(s.client)
    ensures |es| <= Remaining(s)
    decreases |es|
  {
    if es != [] {
      StepsRunOut(s, es[0]);
      StepKeepsClaimed(s, es[0]);
      StepKeepsLifecycle(s, es[0]);
      StepKeepsFailures(s, es[0]);
      StopTerminates(Next(s, es[0]), es[1..]);
    }
  }

  /** And until `mule_stop`, or any other call, has returned, some thread can always make a step. */
  lemma NeverStuck(s: State) returns (e: Event)
    requires s.client != Outside && Lifecycle(s) && MutexOk(s)
    ensures Enabled(s, e) && (e.ClientStep? || e.WorkerStep?)
  {
    e := ClientStep;
    if !ClientCan(s) {
      if s.client.Join? && WorkerCan(s.pool, s.workers[s.client.i]) {
        e := WorkerStep(s.client.i);
      } else {
        e := WorkerStep(s.pool.mutex.id);
      }
    }
  }

  // ----- mule_reset starts over

  /** `mule_reset` called on a stopped, drained pool: the call and its eight steps. */
  const RESET: seq<Event> :=
    [CallReset, ClientStep, ClientStep, ClientStep, ClientStep, ClientStep, ClientStep, ClientStep, ClientStep]

  lemma ResetSyncs(s: State) returns (es: seq<Event>)
    requires s.client == Outside && s.pool.mutex == Free && s.pool.processed == s.pool.queued
    ensures es == RESET[..6] && Leads(s, es, s.(client := ResetQueued))
  {
    var q := s.pool.queued;
    assert Leads(s, [], s);
    es := Then(s, [], s, CallReset, s.(client := SyncLock(true)));
    es := Then(s, es, s.(client := SyncLock(true)), ClientStep, Locked(s, SyncLoadQueued(true)));
    es := Then(s, es, Locked(s, SyncLoadQueued(true)), ClientStep, Locked(s, SyncLoadProcessed(true, q)));
    es := Then(s, es, Locked(s, SyncLoadProcessed(true, q)), ClientStep, Locked(s, SyncTest(true, q, q)));
    es := Then(s, es, Locked(s, SyncTest(true, q, q)), ClientStep, Locked(s, SyncUnlock(true)));
    es := Then(s, es, Locked(s, SyncUnlock(true)), ClientStep, s.(client := ResetQueued));
  }

  /** After a stop, a reset restores the state of `mule_init`, so the next generation is like the first. */
  lemma ResetRestores(s: State)
    requires s.client == Outside && AllAbsent(s) && !s.pool.running && s.pool.mutex == Free
    requires s.pool.threadsRunning == 0 && s.pool.processed == s.pool.queued
    ensures Leads(s, RESET, Init(|s.workers|))
  {
    assert s.workers == Init(|s.workers|).workers;
    var es := ResetSyncs(s);
    var s1 := s.(pool := s.pool.(queued := 0), client := ResetProcessing);
    var s2 := s1.(pool := s1.pool.(processing := 0), client := ResetProcessed);
    es := Then(s, es, s.(client := ResetQueued), ClientStep, s1);
    es := Then(s, es, s1, ClientStep, s2);
    es := Then(s, es, s2, ClientStep, Init(|s.workers|));
    assert es == RESET;
  }

  /** Nobody holds the mutex at the last join. */
  lemma JoinedIsFree(s: State)
    requires Orderly(s) && s.client == Join(|s.workers|)
    ensures s.pool.mutex == Free
  {
    assert forall t :: 0 <= t < |s.workers| ==> !WorkerHolds(s.workers[t]);
  }

  lemma {:induction false} EarlyIsPolite(s: State, es: seq<Event>)
    requires Legal(s, es) && EarlyRun(s, es)
    ensures PoliteRun(s, es)
    decreases |es|
  {
    if es != [] {
      EarlyIsPolite(Next(s, es[0]), es[1..]);
    }
  }

  /**
   A whole generation: from `mule_init` through any run whose submits come before a start, up to the
   last join of `mule_stop`; its return and a `mule_reset` then lead back to `mule_init`.
   */
  lemma GenerationsRepeat(n: nat, es: seq<Event>)
    requires n >= 1 && Legal(Init(n), es) && EarlyRun(Init(n), es) && Exec(Init(n), es).client == Join(n)
    ensures Leads(Init(n), es + [ClientStep] + RESET, Init(n))
  {
    var z := Exec(Init(n), es);
    EarlyIsPolite(Init(n), es);
    ReachableFromInit(n, es);
    StopDrainsFromInit(n, es);
    JoinedIsFree(z);
    var es' := Then(Init(n), es, z, ClientStep, z.(client := Outside));
    ResetRestores(z.(client := Outside));
    LeadsThrough(Init(n), es', z.(client := Outside), RESET, Init(n));
  }
}
