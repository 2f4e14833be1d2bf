/**
 Who finds nothing to do waits: a worker that has found the queue empty loads it again only after one
 timed wait, and a sync that has found items unfinished loads the counters again only after one.
 */
module MuleIdle {
  import opened Basics
  import opened MuleModel
  import opened MuleClaims
  import opened MuleInvariant

  /** The worker has found the queue empty and has neither waited nor left since. */
  function Idle(w: Worker): nat {
    if w.LockIdle? || w.CheckRunning? || w.Quit? || w.BeginWait? || w.Waiting? then 1 else 0
  }

  /** Worker `t` finds the queue empty (175). */
  predicate FindsEmpty(s: State, e: Event, t: nat) {
    e == WorkerStep(t) && t < |s.workers| && s.workers[t].Test? && s.workers[t].queued == s.workers[t].seen
  }

  /** Worker `t` returns from a timed wait, with the mutex (198). */
  predicate Wakes(s: State, e: Event, t: nat) {
    e == WorkerStep(t) && t < |s.workers| && s.workers[t].Waiting?
  }

  /** Worker `t` leaves its loop (182-183). */
  predicate Leaves(s: State, e: Event, t: nat) {
    e == WorkerStep(t) && t < |s.workers| && s.workers[t].Quit?
  }

  /** How often each of them happens along a schedule. */
  function Finds(s: State, es: seq<Event>, t: nat): nat
    requires Legal(s, es)
    decreases |es|
  {
    if es == [] then 0 else (if FindsEmpty(s, es[0], t) then 1 else 0) + Finds(Next(s, es[0]), es[1..], t)
  }

  function Waits(s: State, es: seq<Event>, t: nat): nat
    requires Legal(s, es)
    decreases |es|
  {
    if es == [] then 0
    else (if Wakes(s, es[0], t) || Leaves(s, es[0], t) then 1 else 0) + Waits(Next(s, es[0]), es[1..], t)
  }

  lemma IdleStep(s: State, e: Event, t: nat)
    requires Lifecycle(s) && Enabled(s, e) && t < |s.workers|
    ensures |Next(s, e).workers| == |s.workers|
    ensures Idle(Next(s, e).workers[t]) + (if Wakes(s, e, t) || Leaves(s, e, t) then 1 else 0) ==
            Idle(s.workers[t]) + (if FindsEmpty(s, e, t) then 1 else 0)
  {
  }

  /** On every run, each time a worker finds the queue empty it either waits once or leaves its loop. */
  lemma {:induction false} IdleWorkersWait(s: State, es: seq<Event>, t: nat)
    requires Lifecycle(s) && Legal(s, es) && t < |s.workers|
    ensures |Exec(s, es).workers| == |s.workers|
    ensures Idle(Exec(s, es).workers[t]) + Waits(s, es, t) == Idle(s.workers[t]) + Finds(s, es, t)
    decreases |es|
  {
    if es != [] {
      IdleStep(s, es[0], t);
      StepKeepsLifecycle(s, es[0]);
      IdleWorkersWait(Next(s, es[0]), es[1..], t);
    }
  }

  /** While the worker is in that state it loads nothing; and it leaves only a pool that has been stopped. */
  lemma IdleLoadsNothing(s: State, t: nat)
    requires Orderly(s) && t < |s.workers| && Enabled(s, WorkerStep(t))
    ensures var w, w' := s.workers[t], Next(s, WorkerStep(t)).workers[t];
      && (Idle(w) == 1 && Idle(w') == 0 ==> if w.Waiting? then w' == WaitDone else w.Quit? && !s.pool.running)
      && (w'.LoadQueued? ==> Idle(w) == 0)
      && (w == WaitDone ==> w' == LoadQueued && Next(s, WorkerStep(t)).pool.mutex == Free)
  {
  }

  // ----- the client

  /** The client has found items unfinished and has not waited since. */
  function Pausing(c: Client): nat { if c.SyncBeginWait? || c.SyncWaiting? then 1 else 0 }

  /** The client finds items unfinished (294). */
  predicate FindsUnfinished(s: State, e: Event) {
    e.ClientStep? && s.client.SyncTest? && s.client.processed < s.client.queued
  }

  /** The client returns from a timed wait, with the mutex (308). */
  predicate ClientWakes(s: State, e: Event) { e.ClientStep? && s.client.SyncWaiting? }

  function ClientFinds(s: State, es: seq<Event>): nat
    requires Legal(s, es)
    decreases |es|
  {
    if es == [] then 0 else (if FindsUnfinished(s, es[0]) then 1 else 0) + ClientFinds(Next(s, es[0]), es[1..])
  }

  function ClientWaits(s: State, es: seq<Event>): nat
    requires Legal(s, es)
    decreases |es|
  {
    if es == [] then 0 else (if ClientWakes(s, es[0]) then 1 else 0) + ClientWaits(Next(s, es[0]), es[1..])
  }

  lemma PauseStep(s: State, e: Event)
    requires Enabled(s, e)
    ensures Pausing(Next(s, e).client) + (if ClientWakes(s, e) then 1 else 0) ==
            Pausing(s.client) + (if FindsUnfinished(s, e) then 1 else 0)
  {
  }

  /** On every run, a sync waits once for each time it finds items unfinished, and not otherwise. */
  lemma {:induction false} SyncsWait(s: State, es: seq<Event>)
    requires Legal(s, es)
    ensures Pausing(Exec(s, es).client) + ClientWaits(s, es) == Pausing(s.client) + ClientFinds(s, es)
    decreases |es|
  {
    if es != [] {
      PauseStep(s, es[0]);
      SyncsWait(Next(s, es[0]), es[1..]);
    }
  }
}
