/**
 When `mule_stop` drains the queue. A worker that has found the queue empty goes to look at `running`,
 and once `running` is 0 it leaves without looking at the queue again; so what is submitted late is
 run if and only if some worker has not yet made up its mind, or `mule_sync` holds the client back.
 */
module MuleDrain {
  import opened Basics
  import opened Tally
  import opened MuleModel
  import opened MuleClaims
  import opened MuleInvariant
  import opened MuleStop

  /** Once `running` is 0, worker `t` leaves without another claim, whatever has been submitted. */
  predicate Committed(s: State, t: nat)
    requires t < |s.workers|
  {
    match s.workers[t]
    case Absent => s.client.Join?
    case LoadProcessing(q) => q == s.pool.processing
    case Test(q, p) => q == p
    case LockIdle => true
    case CheckRunning => !s.pool.running
    case Quit => true
    case Retire => true
    case Exited => true
    case _ => false
  }

  /** Nothing is left to claim, or some worker will look at the queue again before it leaves. */
  ghost predicate Served(s: State) {
    s.pool.queued <= s.pool.processing || exists t :: 0 <= t < |s.workers| && !Committed(s, t)
  }

  /** The client is in `mule_sync` and cannot leave its loop before more items are processed. */
  predicate HeldBack(s: State) {
    match s.client
    case SyncLock(_) => true
    case SyncLoadQueued(_) => true
    case SyncLoadProcessed(_, q) => s.pool.processed < q
    case SyncTest(_, q, d) => d < q
    case SyncBeginWait(_) => true
    case SyncWaiting(_) => true
    case _ => false
  }

  predicate Unfed(s: State, e: Event) { !e.Submit? && ResetAlone(s, e) }

  /** Nothing is submitted, and resets find no live worker. */
  ghost predicate UnfedRun(s: State, es: seq<Event>)
    requires Legal(s, es)
    decreases |es|
  {
    es != [] ==> Unfed(s, es[0]) && UnfedRun(Next(s, es[0]), es[1..])
  }

  /** Whenever `mule_stop` has joined the last worker, every item submitted has been processed. */
  ghost predicate DrainsFrom(s: State) {
    forall es :: Legal(s, es) && UnfedRun(s, es) && Exec(s, es).client == Join(|s.workers|) ==>
      Exec(s, es).pool.processed == Exec(s, es).pool.queued
  }

  // ----- served pools drain

  /** While something is left to claim, a worker that is not committed does not commit itself. */
  lemma StaysUncommitted(s: State, t: nat)
    requires Enabled(s, WorkerStep(t)) && !Committed(s, t)
    requires WorkerOk(s.pool, |s.workers| == 1, s.workers[t])
    ensures var s' := Next(s, WorkerStep(t)); s'.pool.processing < s'.pool.queued ==> !Committed(s', t)
  {
  }

  lemma WorkerKeepsServed(s: State, t: nat)
    requires Orderly(s) && Claimed(s) && Enabled(s, WorkerStep(t)) && Served(s)
    ensures Served(Next(s, WorkerStep(t)))
  {
    var s', alone := Next(s, WorkerStep(t)), |s.workers| == 1;
    assert !Storing(s.client) && WorkerOk(s.pool, alone, s.workers[t]);
    WorkerAdvances(s.pool, alone, t, s.workers[t], WorkerAct(s.pool, t, s.workers[t]));
    if s'.pool.processing < s'.pool.queued {
      var u :| 0 <= u < |s.workers| && !Committed(s, u);
      if u == t {
        StaysUncommitted(s, t);
      } else {
        assert s'.workers[u] == s.workers[u] && WorkerOk(s.pool, alone, s.workers[u]);
      }
      assert !Committed(s', u);
    }
  }

  lemma WorkerKeepsHeldBack(s: State, t: nat)
    requires Orderly(s) && Claimed(s) && Enabled(s, WorkerStep(t)) && HeldBack(s) && !Served(s)
    ensures HeldBack(Next(s, WorkerStep(t)))
  {
    assert Committed(s, t);
  }

  lemma ClientKeepsServed(s: State)
    requires Orderly(s) && Claimed(s) && ClientCan(s) && |s.workers| >= 1 && Served(s)
    ensures Served(ClientAct(s))
  {
    var s' := ClientAct(s);
    if s'.pool.processing < s'.pool.queued {
      var u :| 0 <= u < |s.workers| && !Committed(s, u);
      assert !Committed(s', u);
    }
  }

  lemma ClientKeepsHeldBack(s: State)
    requires Claimed(s) && ClientCan(s) && HeldBack(s) && !Served(s)
    ensures HeldBack(ClientAct(s))
  {
  }

  lemma StepKeepsServed(s: State, e: Event)
    requires Orderly(s) && Claimed(s) && |s.workers| >= 1 && Enabled(s, e) && Unfed(s, e)
    requires Served(s) || HeldBack(s)
    ensures Served(Next(s, e)) || HeldBack(Next(s, e))
  {
    if e.WorkerStep? {
      if Served(s) {
        WorkerKeepsServed(s, e.t);
      } else {
        WorkerKeepsHeldBack(s, e.t);
      }
    } else if e.ClientStep? {
      if Served(s) {
        ClientKeepsServed(s);
      } else {
        ClientKeepsHeldBack(s);
      }
    } else if s.pool.processing < s.pool.queued && !HeldBack(s) {
      var u :| 0 <= u < |s.workers| && !Committed(s, u);
      assert !Committed(Next(s, e), u);
    }
  }

  ghost predicate Promising(s: State) {
    Reachable(s) && |s.workers| >= 1 && (Served(s) || HeldBack(s))
  }

  lemma StepKeepsPromise(s: State, e: Event)
    requires Promising(s) && Enabled(s, e) && Unfed(s, e)
    ensures Promising(Next(s, e)) && |Next(s, e).workers| == |s.workers|
  {
    assert Polite(s, e);
    StepKeepsReachable(s, e);
    StepKeepsServed(s, e);
  }

  lemma {:induction false} RunKeepsPromise(s: State, es: seq<Event>)
    requires Promising(s) && Legal(s, es) && UnfedRun(s, es)
    ensures Promising(Exec(s, es)) && |Exec(s, es).workers| == |s.workers|
    decreases |es|
  {
    if es != [] {
      StepKeepsPromise(s, es[0]);
      RunKeepsPromise(Next(s, es[0]), es[1..]);
    }
  }

  /** At the last join nobody is left to make up for anything. */
  lemma JoinedMeansDrained(s: State)
    requires Reachable(s) && Served(s) && s.client == Join(|s.workers|)
    ensures s.pool.processed == s.pool.processing == s.pool.queued == |s.pool.log.claims|
    ensures forall i :: 0 <= i < s.pool.queued ==>
              s.pool.log.claims[i].item == i + 1 && s.pool.log.claims[i] in s.pool.log.done
  {
    assert forall t :: 0 <= t < |s.workers| ==> Committed(s, t);
    SumZero(s.workers, Busy);
    AllFinished(s);
  }

  lemma ServedDrains(s: State)
    requires Promising(s)
    ensures DrainsFrom(s)
  {
    forall es | Legal(s, es) && UnfedRun(s, es) && Exec(s, es).client == Join(|s.workers|)
      ensures Exec(s, es).pool.processed == Exec(s, es).pool.queued
    {
      RunKeepsPromise(s, es);
      JoinedMeansDrained(Exec(s, es));
    }
  }

  // ----- unserved pools do not

  /** While `mule_stop` waits for committed workers, nothing more is claimed, whoever steps. */
  lemma StopKeepsUnserved(s: State, e: Event)
    requires Reachable(s) && Stopping(s) && !Served(s) && s.client != Join(|s.workers|)
    requires Enabled(s, e) && !e.Submit?
    ensures var s' := Next(s, e);
            Stopping(s') && !Served(s') && s'.pool.queued == s.pool.queued && s'.pool.processing == s.pool.processing
  {
    var s' := Next(s, e);
    if e.WorkerStep? {
      assert Committed(s, e.t);
    }
    forall u | 0 <= u < |s'.workers|
      ensures Committed(s', u)
    {
      assert Committed(s, u);
    }
  }

  /** Whatever the scheduler does, it then comes to the last join with items left over. */
  lemma {:induction false} StopLeavesItems(s: State) returns (es: seq<Event>)
    requires Reachable(s) && Stopping(s) && !Served(s)
    ensures Legal(s, es) && UnfedRun(s, es) && Exec(s, es).client == Join(|s.workers|)
    ensures Exec(s, es).pool.processing == s.pool.processing && Exec(s, es).pool.queued == s.pool.queued
    decreases Remaining(s)
  {
    es := [];
    if s.client != Join(|s.workers|) {
      var e := NeverStuck(s);
      StopKeepsUnserved(s, e);
      StepsRunOut(s, e);
      StepKeepsReachable(s, e);
      es := StopLeavesItems(Next(s, e));
      assert ([e] + es)[1..] == es;
      es := [e] + es;
    }
  }

  /** How far the client still is from clearing `running`. */
  function ToStop(c: Client): nat {
    match c
    case StopClear => 0
    case StopCheck => 1
    case StopLock => 2
    case Outside => 3
    case StartLock => 6
    case StartCheck => 5
    case SyncLoadProcessed(_, _) => 6
    case SyncTest(_, _, _) => 5
    case Create(_) => 5
    case _ => 4
  }

  /** No worker that is committed to leave a running pool holds the mutex. */
  lemma CommittedHoldNothing(s: State)
    requires Orderly(s) && s.pool.running && !Served(s)
    ensures s.pool.mutex == Free || s.pool.mutex == HeldBy(|s.workers|)
  {
    forall t | 0 <= t < |s.workers|
      ensures !WorkerHolds(s.workers[t])
    {
      assert Committed(s, t);
    }
  }

  /** A client that nothing holds back can go on to `mule_stop` before any worker moves. */
  lemma ClientGoesToStop(s: State) returns (e: Event)
    requires Orderly(s) && Claimed(s) && s.pool.running && !Served(s) && !HeldBack(s) && |s.workers| >= 1
    ensures Enabled(s, e) && (e == ClientStep || e == CallStop)
    ensures var s' := Next(s, e);
            && !Served(s') && s'.pool.queued == s.pool.queued && s'.pool.processing == s.pool.processing
            && (Stopping(s') || (s'.pool.running && !HeldBack(s') && ToStop(s'.client) < ToStop(s.client)))
  {
    e := if s.client == Outside then CallStop else ClientStep;
    assert Committed(s, 0);
    CommittedHoldNothing(s);
    assert s.client.Create? && s.client.i < |s.workers| ==> !Committed(s, s.client.i);
    forall u | 0 <= u < |s.workers|
      ensures Committed(Next(s, e), u)
    {
      assert Committed(s, u);
    }
  }

  lemma {:induction false} UnservedReachesStop(s: State) returns (es: seq<Event>)
    requires Reachable(s) && s.pool.running && !Served(s) && !HeldBack(s) && |s.workers| >= 1
    ensures Legal(s, es) && UnfedRun(s, es) && Exec(s, es).client == Join(|s.workers|)
    ensures Exec(s, es).pool.processing == s.pool.processing && Exec(s, es).pool.queued == s.pool.queued
    decreases ToStop(s.client)
  {
    var e := ClientGoesToStop(s);
    StepKeepsReachable(s, e);
    if Stopping(Next(s, e)) {
      es := StopLeavesItems(Next(s, e));
    } else {
      es := UnservedReachesStop(Next(s, e));
    }
    assert ([e] + es)[1..] == es;
    es := [e] + es;
  }

  /** A pool that is not running and not being stopped has no workers, and the next start creates them. */
  lemma UnservedRunsOrStops(s: State)
    requires Lifecycle(s) && !Served(s) && |s.workers| >= 1
    ensures s.pool.running || Stopping(s)
  {
    assert Committed(s, 0);
  }

  lemma {:induction false} UnfedIsPolite(s: State, es: seq<Event>)
    requires Legal(s, es) && UnfedRun(s, es)
    ensures PoliteRun(s, es)
    decreases |es|
  {
    if es != [] {
      UnfedIsPolite(Next(s, es[0]), es[1..]);
    }
  }

  /**
   Without further submits, every stop drains the queue if and only if nothing is left to claim, or
   some worker is not yet committed to leave, or the client is held back by `mule_sync`.
   */
  lemma DrainsExactly(s: State)
    requires Reachable(s) && |s.workers| >= 1
    ensures DrainsFrom(s) <==> Served(s) || HeldBack(s)
  {
    if Served(s) || HeldBack(s) {
      ServedDrains(s);
    } else {
      UnservedRunsOrStops(s);
      var es;
      if s.pool.running {
        es := UnservedReachesStop(s);
      } else {
        es := StopLeavesItems(s);
      }
      UnfedIsPolite(s, es);
      RunKeepsReachable(s, es);
    }
  }

  /**
   A submit outside the window is drained by every later stop if and only if, when it lands, some
   worker is not yet committed or `mule_sync` holds the client back.
   */
  lemma SubmitIsDrainedExactly(s: State, count: nat)
    requires Reachable(s) && |s.workers| >= 1 && count > 0 && Polite(s, Submit(count))
    ensures DrainsFrom(Next(s, Submit(count))) <==>
            (exists t :: 0 <= t < |s.workers| && !Committed(s, t)) || HeldBack(s)
  {
    var s' := Next(s, Submit(count));
    StepKeepsReachable(s, Submit(count));
    DrainsExactly(s');
    assert forall t :: 0 <= t < |s.workers| ==> (Committed(s, t) <==> Committed(s', t));
  }

  // ----- such submits happen

  /** `mule_start` creates the workers from `i` on; the schedule so far is harmless. */
  lemma {:induction false} CreatesWorkers(s0: State, es: seq<Event>, s: State, i: nat)
      returns (es': seq<Event>, s': State)
    requires Leads(s0, es, s) && (forall e :: e in es ==> Harmless(e)) && s.client == Create(i) && i <= |s.workers|
    requires forall t :: 0 <= t < i ==> s.workers[t] == Starting
    ensures Leads(s0, es', s') && (forall e :: e in es' ==> Harmless(e))
    ensures s'.client == Outside && s'.pool == s.pool.(mutex := Free) && |s'.workers| == |s.workers|
    ensures forall t :: 0 <= t < |s'.workers| ==> s'.workers[t] == Starting
    decreases |s.workers| - i
  {
    s' := ClientAct(s);
    es' := Then(s0, es, s, ClientStep, s');
    if i < |s.workers| {
      es', s' := CreatesWorkers(s0, es', s', i + 1);
    } else {
      es' := Then(s0, es', s', ClientStep, ClientAct(s'));
      s' := ClientAct(s');
    }
  }

  /** Workers from `i` on find the empty queue empty. */
  lemma {:induction false} FindQueueEmpty(s0: State, es: seq<Event>, s: State, i: nat)
      returns (es': seq<Event>, s': State)
    requires Leads(s0, es, s) && (forall e :: e in es ==> Harmless(e)) && i <= |s.workers|
    requires s.pool.queued == s.pool.processing
    requires forall t :: 0 <= t < |s.workers| ==> s.workers[t] == if t < i then LockIdle else Starting
    ensures Leads(s0, es', s') && (forall e :: e in es' ==> Harmless(e)) && s'.client == s.client
    ensures s'.pool == s.pool.(threadsRunning := s'.pool.threadsRunning) && |s'.workers| == |s.workers|
    ensures forall t :: 0 <= t < |s'.workers| ==> s'.workers[t] == LockIdle
    decreases |s.workers| - i
  {
    es', s' := es, s;
    if i < |s.workers| {
      var q := s.pool.queued;
      es', s' := Works(s0, es', s', i, WorkerAct(s'.pool, i, Starting));
      es', s' := Works(s0, es', s', i, WorkerAct(s'.pool, i, LoadQueued));
      es', s' := Works(s0, es', s', i, WorkerAct(s'.pool, i, LoadProcessing(q)));
      es', s' := Works(s0, es', s', i, WorkerAct(s'.pool, i, Test(q, q)));
      assert s'.workers == s.workers[i := LockIdle];
      es', s' := FindQueueEmpty(s0, es', s', i + 1);
    }
  }

  /** `mule_start` on a pool of `n` workers. */
  lemma Started(n: nat) returns (es: seq<Event>, s: State)
    ensures Leads(Init(n), es, s) && forall e :: e in es ==> Harmless(e)
    ensures s.pool == Init(n).pool.(running := true) && s.client == Outside && |s.workers| == n
    ensures forall t :: 0 <= t < n ==> s.workers[t] == Starting
  {
    s := Init(n);
    assert Leads(s, [], s);
    es := Then(Init(n), [], s, CallStart, s.(client := StartLock));
    s := s.(client := StartLock);
    es := Then(Init(n), es, s, ClientStep, Locked(s, StartCheck));
    s := Locked(s, StartCheck);
    es := Then(Init(n), es, s, ClientStep, s.(client := StartSet));
    s := s.(client := StartSet);
    es := Then(Init(n), es, s, ClientStep, s.(pool := s.pool.(running := true), client := Create(0)));
    s := s.(pool := s.pool.(running := true), client := Create(0));
    es, s := CreatesWorkers(Init(n), es, s, 0);
  }

  /** A started pool of two workers at the top of their loops. */
  lemma TwoAtTop() returns (es: seq<Event>, s: State)
    ensures Leads(Init(2), es, s) && forall e :: e in es ==> Harmless(e)
    ensures s.workers == [LoadQueued, LoadQueued] && s.client == Outside
    ensures s.pool.queued == s.pool.processing == s.pool.processed == s.pool.log.signals == 0
  {
    es, s := Started(2);
    es, s := Works(Init(2), es, s, 0, WorkerAct(s.pool, 0, Starting));
    es, s := Works(Init(2), es, s, 1, WorkerAct(s.pool, 1, Starting));
    assert s.workers == [LoadQueued, LoadQueued];
  }

  /** A started pool of `n` workers all of which have found the queue empty. */
  lemma AllIdle(n: nat) returns (es: seq<Event>, s: State)
    ensures Leads(Init(n), es, s) && forall e :: e in es ==> Harmless(e)
    ensures s.client == Outside && s.pool.running && s.pool.queued == s.pool.processing == 0 && |s.workers| == n
    ensures forall t :: 0 <= t < n ==> s.workers[t] == LockIdle
  {
    es, s := Started(n);
    es, s := FindQueueEmpty(Init(n), es, s, 0);
  }

  lemma {:induction false} HarmlessIsPolite(s: State, es: seq<Event>)
    requires Legal(s, es) && forall e :: e in es ==> Harmless(e)
    ensures PoliteRun(s, es)
    decreases |es|
  {
    if es != [] {
      assert es[0] in es && forall e :: e in es[1..] ==> e in es;
      HarmlessIsPolite(Next(s, es[0]), es[1..]);
    }
  }

  /**
   With any number of workers: a run from `mule_init` on which all have found the queue empty, a submit,
   and a stop that follows it and returns with nothing of it claimed.
   */
  lemma LateSubmitIsDropped(n: nat, count: nat) returns (es: seq<Event>, late: seq<Event>)
    requires n >= 1 && count > 0
    ensures Legal(Init(n), es) && PoliteRun(Init(n), es)
    ensures var s := Exec(Init(n), es);
            && s.client == Outside && s.pool.running && Polite(s, Submit(count))
            && var s' := Next(s, Submit(count));
            && Legal(s', late) && UnfedRun(s', late) && Exec(s', late).client == Join(n)
            && Exec(s', late).pool.processing == 0 && Exec(s', late).pool.queued == count
  {
    var s;
    es, s := AllIdle(n);
    HarmlessIsPolite(Init(n), es);
    ReachableFromInit(n, es);
    StepKeepsReachable(s, Submit(count));
    late := UnservedReachesStop(Next(s, Submit(count)));
  }
}
