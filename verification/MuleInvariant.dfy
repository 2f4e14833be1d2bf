/**
 Everything that holds in every reachable state of the pool, in one place: claiming, failures, which
 workers exist, who holds the mutex, and that no worker leaves while the pool is running.
 */
module MuleInvariant {
  import opened Basics
  import opened MuleModel
  import opened MuleClaims
  import opened MuleFailures

  // ----- the mutex

  predicate WorkerHolds(w: Worker) { w.CheckRunning? || w.Quit? || w.BeginWait? || w.WaitDone? }

  predicate ClientHolds(c: Client) {
    c.StartCheck? || c.StartRefuse? || c.StartSet? || c.Create? || c.StartUnlock? ||
    c.SyncLoadQueued? || c.SyncLoadProcessed? || c.SyncTest? || c.SyncBeginWait? || c.SyncUnlock? ||
    c.StopCheck? || c.StopRefuse? || c.StopClear? || c.StopUnlock?
  }

  /** At most one thread holds the mutex, and it is the recorded holder. */
  ghost predicate MutexOk(s: State) {
    && (s.pool.mutex.HeldBy? ==> s.pool.mutex.id <= |s.workers|)
    && (ClientHolds(s.client) <==> s.pool.mutex == HeldBy(|s.workers|))
    && forall t :: 0 <= t < |s.workers| ==> (WorkerHolds(s.workers[t]) <==> s.pool.mutex == HeldBy(t))
  }

  lemma WorkerKeepsMutex(s: State, t: nat)
    requires MutexOk(s) && Enabled(s, WorkerStep(t))
    ensures MutexOk(Next(s, WorkerStep(t)))
  {
    var w, a := s.workers[t], WorkerAct(s.pool, t, s.workers[t]);
    assert WorkerHolds(a.w) <==> a.pool.mutex == HeldBy(t);
    assert a.pool.mutex == s.pool.mutex || a.pool.mutex == HeldBy(t) ||
           (a.pool.mutex == Free && s.pool.mutex == HeldBy(t));
  }

  lemma StepKeepsMutex(s: State, e: Event)
    requires MutexOk(s) && Lifecycle(s) && Enabled(s, e)
    ensures MutexOk(Next(s, e))
  {
    if e.WorkerStep? {
      WorkerKeepsMutex(s, e.t);
    }
  }

  // ----- nobody leaves a running pool

  predicate Leaving(w: Worker) { w.Quit? || w.Retire? || w.Exited? }

  ghost predicate Staying(s: State) {
    s.pool.running ==> forall t :: 0 <= t < |s.workers| ==> !Leaving(s.workers[t])
  }

  lemma StepKeepsStaying(s: State, e: Event)
    requires Staying(s) && Lifecycle(s) && Enabled(s, e)
    ensures Staying(Next(s, e))
  {
    if e.WorkerStep? {
      var a := WorkerAct(s.pool, e.t, s.workers[e.t]);
      assert a.pool.running == s.pool.running;
    }
  }

  // ----- reachable states

  /** Who exists, who holds the mutex and who leaves: kept by every step of every schedule. */
  ghost predicate Orderly(s: State) { Lifecycle(s) && MutexOk(s) && Staying(s) }

  lemma StepKeepsOrder(s: State, e: Event)
    requires Orderly(s) && Enabled(s, e)
    ensures Orderly(Next(s, e)) && |Next(s, e).workers| == |s.workers|
  {
    StepKeepsLifecycle(s, e);
    StepKeepsMutex(s, e);
    StepKeepsStaying(s, e);
  }

  /** What holds of every state that a polite schedule can reach. */
  ghost predicate Reachable(s: State) { Orderly(s) && Claimed(s) && FailuresBounded(s) }

  lemma StepKeepsReachable(s: State, e: Event)
    requires Reachable(s) && Enabled(s, e) && Polite(s, e)
    ensures Reachable(Next(s, e)) && |Next(s, e).workers| == |s.workers|
  {
    StepKeepsOrder(s, e);
    StepKeepsClaimed(s, e);
    StepKeepsFailures(s, e);
  }

  lemma {:induction false} RunKeepsReachable(s: State, es: seq<Event>)
    requires Reachable(s) && Legal(s, es) && PoliteRun(s, es)
    ensures Reachable(Exec(s, es)) && |Exec(s, es).workers| == |s.workers|
    decreases |es|
  {
    if es != [] {
      StepKeepsReachable(s, es[0]);
      RunKeepsReachable(Next(s, es[0]), es[1..]);
    }
  }

  /** Every polite run from `mule_init` keeps all of it. */
  lemma ReachableFromInit(n: nat, es: seq<Event>)
    requires Legal(Init(n), es) && PoliteRun(Init(n), es)
    ensures Reachable(Exec(Init(n), es)) && |Exec(Init(n), es).workers| == n
  {
    InitClaimed(n);
    InitFailures(n);
    RunKeepsReachable(Init(n), es);
  }
}
