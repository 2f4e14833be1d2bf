/**
 Every call of the client ends: `mule_start`, `mule_reset` and `mule_stop`, and `mule_sync` once the
 queue is processed, return after a number of the client's own steps that is known beforehand, and the
 client is never held up for good.
 */
module MuleCalls {
  import opened Basics
  import opened MuleModel
  import opened MuleClaims
  import opened MuleLifecycle
  import opened MuleInvariant
  import opened MuleStop
  import opened MuleWindow

  /** The client's own steps up to the end of its call. */
  function ToReturn(n: nat, c: Client): nat {
    match c
    case Outside => 0
    case StartLock => n + 5
    case StartCheck => n + 4
    case StartRefuse => 1
    case StartSet => n + 3
    case Create(i) => if i <= n then n - i + 2 else 0
    case StartUnlock => 1
    case SyncBeginWait(r) => 6 + AfterSync(r)
    case SyncLock(r) => 5 + AfterSync(r)
    case SyncWaiting(r) => 5 + AfterSync(r)
    case SyncLoadQueued(r) => 4 + AfterSync(r)
    case SyncLoadProcessed(r, _) => 3 + AfterSync(r)
    case SyncTest(r, q, d) => (if d < q then 7 else 2) + AfterSync(r)
    case SyncUnlock(r) => 1 + AfterSync(r)
    case ResetQueued => 3
    case ResetProcessing => 2
    case ResetProcessed => 1
    case StopLock => n + 5
    case StopCheck => n + 4
    case StopRefuse => 1
    case StopClear => n + 3
    case StopUnlock => n + 2
    case Join(i) => if i <= n then n - i + 1 else 0
  }

  /** The three stores of `mule_reset`. */
  function AfterSync(reset: bool): nat { if reset then 3 else 0 }

  /** A sync has nothing left to wait for. */
  ghost predicate Unhindered(s: State) {
    Lifecycle(s) && SyncKnows(s) && (Syncing(s.client) ==> s.pool.queued <= s.pool.processed)
  }

  lemma SyncStepComesCloser(s: State)
    requires Unhindered(s) && ClientCan(s) && Syncing(s.client)
    ensures ToReturn(|s.workers|, ClientAct(s).client) < ToReturn(|s.workers|, s.client)
    ensures ClientAct(s).pool.queued == s.pool.queued && ClientAct(s).pool.processed == s.pool.processed
    ensures ClientAct(s).workers == s.workers
  {
  }

  lemma OtherStepComesCloser(s: State)
    requires Lifecycle(s) && ClientCan(s) && !Syncing(s.client)
    ensures ToReturn(|s.workers|, ClientAct(s).client) < ToReturn(|s.workers|, s.client)
    ensures !Syncing(ClientAct(s).client) && |ClientAct(s).workers| == |s.workers|
  {
  }

  /** Each step of the client brings its call closer to its end. */
  lemma OwnStepComesCloser(s: State)
    requires Unhindered(s) && ClientCan(s)
    ensures ToReturn(|s.workers|, ClientAct(s).client) < ToReturn(|s.workers|, s.client)
    ensures Unhindered(ClientAct(s)) && |ClientAct(s).workers| == |s.workers|
  {
    StepKeepsLifecycle(s, ClientStep);
    StepKeepsSync(s, ClientStep);
    if Syncing(s.client) {
      SyncStepComesCloser(s);
    } else {
      OtherStepComesCloser(s);
    }
  }

  lemma WorkerHindersNot(s: State, t: nat)
    requires Unhindered(s) && Enabled(s, WorkerStep(t))
    ensures Unhindered(Next(s, WorkerStep(t))) && Next(s, WorkerStep(t)).client == s.client
  {
    StepKeepsLifecycle(s, WorkerStep(t));
    StepKeepsSync(s, WorkerStep(t));
    var a := WorkerAct(s.pool, t, s.workers[t]);
    assert a.pool.queued == s.pool.queued && a.pool.processed >= s.pool.processed;
  }

  /** How often the client steps. */
  function OwnSteps(es: seq<Event>): nat {
    if es == [] then 0 else (if es[0].ClientStep? then 1 else 0) + OwnSteps(es[1..])
  }

  /**
   Whatever the workers do meanwhile, the client's call is over after so many steps of its own. In
   particular a sync returns once everything has been processed, also if it has begun to wait.
   */
  lemma {:induction false} CallEnds(s: State, es: seq<Event>)
    requires Unhindered(s) && Legal(s, es) && Extends([], es)
    ensures var z := Exec(s, es);
      && |z.workers| == |s.workers| && Unhindered(z)
      && OwnSteps(es) + ToReturn(|s.workers|, z.client) <= ToReturn(|s.workers|, s.client)
      && (OwnSteps(es) == ToReturn(|s.workers|, s.client) ==> z.client == Outside)
    decreases |es|
  {
    if es != [] {
      assert Internal(es[0]) && forall i :: 0 <= i < |es[1..]| ==> es[1..][i] == es[i + 1];
      if es[0].ClientStep? {
        OwnStepComesCloser(s);
      } else {
        WorkerHindersNot(s, es[0].t);
      }
      CallEnds(Next(s, es[0]), es[1..]);
    }
    InsideHasSteps(Exec(s, es));
  }

  /** Who is inside a call has a step to make. */
  lemma InsideHasSteps(s: State)
    requires Lifecycle(s)
    ensures ToReturn(|s.workers|, s.client) == 0 <==> s.client == Outside
    ensures ToReturn(|s.workers|, s.client) <= |s.workers| + 10
  {
  }

  /** A worker that holds the mutex gives it back within two steps. */
  lemma HolderReleases(s: State)
    requires MutexOk(s) && s.pool.mutex.HeldBy? && s.pool.mutex.id < |s.workers|
    ensures var e := WorkerStep(s.pool.mutex.id);
      && Enabled(s, e)
      && (Next(s, e).pool.mutex == Free || (Enabled(Next(s, e), e) && Next(Next(s, e), e).pool.mutex == Free))
  {
    var w := s.workers[s.pool.mutex.id];
    assert WorkerHolds(w);
  }

  /** Outside `mule_stop` the client is held up by nothing but the mutex. */
  lemma OnlyMutexHoldsUp(s: State)
    requires Orderly(s) && s.client != Outside && !s.client.Join?
    ensures ClientCan(s) || (s.pool.mutex.HeldBy? && s.pool.mutex.id < |s.workers|)
  {
  }

  /** One more step on the way to the end of a call. */
  lemma CallGoesOn(s: State) returns (e: Event)
    requires Reachable(s) && Unhindered(s) && s.client != Outside && !Stopping(s)
    ensures Enabled(s, e) && Internal(e) && Reachable(Next(s, e)) && Unhindered(Next(s, e))
    ensures var s' := Next(s, e);
      && |s'.workers| == |s.workers|
      && (ToReturn(|s.workers|, s'.client) < ToReturn(|s.workers|, s.client) ||
          (s'.client == s.client && ToRelease(s') < ToRelease(s)))
  {
    OnlyMutexHoldsUp(s);
    if ClientCan(s) {
      e := ClientStep;
      OwnStepComesCloser(s);
    } else {
      e := WorkerStep(s.pool.mutex.id);
      HolderReleases(s);
      WorkerHindersNot(s, s.pool.mutex.id);
    }
    StepKeepsReachable(s, e);
  }

  /**
   From every reachable state inside a call, a sync having nothing left to wait for, some schedule of
   workers and client ends the call.
   */
  lemma {:induction false} EveryCallCanEnd(s: State) returns (es: seq<Event>)
    requires Reachable(s) && Unhindered(s)
    ensures Legal(s, es) && Extends([], es) && Exec(s, es).client == Outside
    decreases ToReturn(|s.workers|, s.client), ToRelease(s)
  {
    es := [];
    if s.client != Outside {
      if Stopping(s) {
        es := StopCanEnd(s);
      } else {
        var e := CallGoesOn(s);
        es := EveryCallCanEnd(Next(s, e));
        assert ([e] + es)[1..] == es;
        es := [e] + es;
      }
    }
  }

  lemma {:induction false} StopCanEnd(s: State) returns (es: seq<Event>)
    requires Reachable(s) && Stopping(s)
    ensures Legal(s, es) && Extends([], es) && Exec(s, es).client == Outside
    decreases Remaining(s)
  {
    var e := NeverStuck(s);
    StepsRunOut(s, e);
    StepKeepsReachable(s, e);
    es := [];
    if Next(s, e).client != Outside {
      es := StopCanEnd(Next(s, e));
    }
    assert ([e] + es)[1..] == es;
    es := [e] + es;
  }
}
