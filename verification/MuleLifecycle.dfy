/**
 The promises of `mule_sync` and `mule_stop`: sync is a barrier, and a stop drains the queue, even
 without a sync before it, when every submit precedes the start.
 */
module MuleLifecycle {
  import opened Tally
  import opened MuleModel
  import opened MuleClaims

  // ----- mule_sync is a barrier

  predicate Syncing(c: Client) {
    c.SyncLock? || c.SyncLoadQueued? || c.SyncLoadProcessed? || c.SyncTest? ||
    c.SyncBeginWait? || c.SyncWaiting? || c.SyncUnlock?
  }

  /** Nothing is submitted while the client is inside `mule_sync`. */
  predicate Quiet(s: State, e: Event) {
    e.Submit? ==> !Syncing(s.client)
  }

  /** What the client's local variables in `mule_sync` know. */
  ghost predicate SyncKnows(s: State) {
    match s.client
    case SyncLoadProcessed(_, q) => q == s.pool.queued
    case SyncTest(_, q, d) => q == s.pool.queued && d <= s.pool.processed
    case SyncUnlock(_) => s.pool.queued <= s.pool.processed
    case _ => true
  }

  lemma StepKeepsSync(s: State, e: Event)
    requires SyncKnows(s) && Enabled(s, e) && Quiet(s, e)
    ensures SyncKnows(Next(s, e))
  {
    if e.WorkerStep? {
      var a := WorkerAct(s.pool, e.t, s.workers[e.t]);
      assert a.pool.queued == s.pool.queued && a.pool.processed >= s.pool.processed;
    }
  }

  ghost predicate QuietRun(s: State, es: seq<Event>)
    requires Legal(s, es)
    decreases |es|
  {
    es != [] ==> Polite(s, es[0]) && Quiet(s, es[0]) && QuietRun(Next(s, es[0]), es[1..])
  }

  /**
   Whenever `mule_sync` leaves its loop, on any run on which nothing was submitted during it, all
   counters agree, no worker is inside the kernel, and every item submitted has been run.
   */
  lemma {:induction false} SyncIsBarrier(s: State, es: seq<Event>)
    requires Claimed(s) && Lifecycle(s) && SyncKnows(s) && Legal(s, es) && QuietRun(s, es)
    ensures var z := Exec(s, es);
      z.client.SyncUnlock? ==>
        && z.pool.processed == z.pool.processing == z.pool.queued == |z.pool.log.claims|
        && (forall t :: 0 <= t < |z.workers| ==> !z.workers[t].Kernel? && !z.workers[t].Count?)
        && (forall i :: 0 <= i < z.pool.queued ==>
              z.pool.log.claims[i].item == i + 1 && z.pool.log.claims[i] in z.pool.log.done)
    decreases |es|
  {
    if es == [] {
      if s.client.SyncUnlock? {
        AllFinished(s);
      }
    } else {
      StepKeepsClaimed(s, es[0]);
      StepKeepsLifecycle(s, es[0]);
      StepKeepsSync(s, es[0]);
      SyncIsBarrier(Next(s, es[0]), es[1..]);
    }
  }

  // ----- mule_stop drains the queue

  /** Between 157 and 232. */
  function Registered(w: Worker): nat {
    if w.Absent? || w.Starting? || w.Exited? then 0 else 1
  }

  /** When every submit precedes the start, a worker goes idle only after the last claim. */
  ghost predicate DrainOk(s: Pool, w: Worker) {
    match w
    case LoadProcessing(q) => q == s.queued
    case Test(q, _) => q == s.queued
    case Claim(q, _) => q == s.queued
    case Kernel(q, _) => q == s.queued
    case Count(q) => q == s.queued
    case CheckLast(q, _) => q == s.queued
    case Quit => s.processing == s.queued && !s.running
    case Retire => s.processing == s.queued && !s.running
    case Exited => s.processing == s.queued && !s.running
    case LockIdle => s.processing == s.queued
    case CheckRunning => s.processing == s.queued
    case BeginWait => s.processing == s.queued
    case Waiting => s.processing == s.queued
    case WaitDone => s.processing == s.queued
    case _ => true
  }

  ghost predicate DrainsOk(s: State) {
    forall t :: 0 <= t < |s.workers| ==> DrainOk(s.pool, s.workers[t])
  }

  ghost predicate Draining(s: State) {
    && DrainsOk(s)
    && s.pool.threadsRunning == Sum(s.workers, Registered)
    && (s.client.Join? && s.client.i > 0 ==> s.pool.processing == s.pool.queued)
  }

  lemma InitDraining(n: nat)
    ensures Draining(Init(n))
  {
    SumZero(Init(n).workers, Registered);
  }

  lemma WorkerDrains(s: Pool, alone: bool, t: nat, w: Worker, a: After)
    requires WorkerCan(s, w) && a == WorkerAct(s, t, w) && WorkerOk(s, alone, w) && DrainOk(s, w)
    requires s.processing <= s.queued
    ensures DrainOk(a.pool, a.w)
    ensures a.pool.queued == s.queued && s.processing <= a.pool.processing <= s.queued
    ensures a.pool.running == s.running
    ensures a.pool.threadsRunning - s.threadsRunning == Registered(a.w) - Registered(w)
  {
  }

  lemma WorkerKeepsDraining(s: State, t: nat)
    requires Claimed(s) && Draining(s) && Enabled(s, WorkerStep(t))
    ensures Draining(Next(s, WorkerStep(t)))
  {
    var a := WorkerAct(s.pool, t, s.workers[t]);
    assert !Resetting(s.client) && WorkerOk(s.pool, |s.workers| == 1, s.workers[t]);
    WorkerDrains(s.pool, |s.workers| == 1, t, s.workers[t], a);
    SumUpdate(s.workers, t, a.w, Registered);
    assert forall w :: DrainOk(s.pool, w) ==> DrainOk(a.pool, w);
  }

  lemma ClientKeepsDraining(s: State)
    requires Claimed(s) && Lifecycle(s) && Draining(s) && ClientCan(s)
    ensures Draining(ClientAct(s))
  {
    if ChangesWorkers(s.client) && s.client.i < |s.workers| {
      var w := if s.client.Create? then Starting else Absent;
      assert DrainOk(s.pool, s.workers[s.client.i]);
      SumUpdate(s.workers, s.client.i, w, Registered);
    }
  }

  lemma StepKeepsDraining(s: State, e: Event)
    requires Claimed(s) && Lifecycle(s) && Draining(s) && Enabled(s, e) && Early(s, e)
    ensures Draining(Next(s, e))
  {
    match e
    case WorkerStep(t) => WorkerKeepsDraining(s, t);
    case ClientStep => ClientKeepsDraining(s);
    case _ =>
  }

  ghost predicate EarlyRun(s: State, es: seq<Event>)
    requires Legal(s, es)
    decreases |es|
  {
    es != [] ==> Early(s, es[0]) && EarlyRun(Next(s, es[0]), es[1..])
  }

  /** What holds of every state that an early schedule can reach. */
  ghost predicate WellDrained(s: State) { Claimed(s) && Lifecycle(s) && Draining(s) }

  lemma TableStays(s: State, e: Event)
    requires Enabled(s, e)
    ensures |Next(s, e).workers| == |s.workers|
  {
  }

  lemma StepStaysDrained(s: State, e: Event)
    requires WellDrained(s) && Enabled(s, e) && Early(s, e)
    ensures WellDrained(Next(s, e)) && |Next(s, e).workers| == |s.workers|
  {
    assert Polite(s, e);
    TableStays(s, e);
    StepKeepsClaimed(s, e);
    StepKeepsLifecycle(s, e);
    StepKeepsDraining(s, e);
  }

  lemma {:induction false} RunKeepsDraining(s: State, es: seq<Event>)
    requires WellDrained(s) && Legal(s, es) && EarlyRun(s, es)
    ensures WellDrained(Exec(s, es)) && |Exec(s, es).workers| == |s.workers|
    decreases |es|
  {
    if es != [] {
      StepStaysDrained(s, es[0]);
      RunKeepsDraining(Next(s, es[0]), es[1..]);
    }
  }

  /**
   When `mule_stop` has joined the last worker, called at any moment and with or without a sync
   before it, everything submitted has been claimed, run once and counted, and no thread is left.
   */
  lemma StopDrains(s: State)
    requires Claimed(s) && Lifecycle(s) && Draining(s)
    requires s.client == Join(|s.workers|) && |s.workers| >= 1
    ensures s.pool.processed == s.pool.processing == s.pool.queued == |s.pool.log.claims|
    ensures AllAbsent(s) && !s.pool.running && s.pool.threadsRunning == 0
    ensures forall i :: 0 <= i < s.pool.queued ==>
              s.pool.log.claims[i].item == i + 1 && s.pool.log.claims[i] in s.pool.log.done
  {
    SumZero(s.workers, Busy);
    SumZero(s.workers, Registered);
    AllFinished(s);
  }

  /** The same from `mule_init`, for every run whose submits all precede a start. */
  lemma StopDrainsFromInit(n: nat, es: seq<Event>)
    requires n >= 1 && Legal(Init(n), es) && EarlyRun(Init(n), es)
    requires Exec(Init(n), es).client == Join(n)
    ensures var z := Exec(Init(n), es);
      && z.pool.processed == z.pool.processing == z.pool.queued == |z.pool.log.claims|
      && AllAbsent(z) && !z.pool.running && z.pool.threadsRunning == 0
      && forall i :: 0 <= i < z.pool.queued ==>
           z.pool.log.claims[i].item == i + 1 && z.pool.log.claims[i] in z.pool.log.done
  {
    InitClaimed(n);
    InitDraining(n);
    RunKeepsDraining(Init(n), es);
    StopDrains(Exec(Init(n), es));
  }
}
