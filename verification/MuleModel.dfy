/**
 The mumule thread pool as a step machine: any number of workers run `mule_thread`, one client
 thread calls start, sync, stop and reset, and anybody may submit. One step performs one atomic
 operation; the number after a constructor is the line of mumule.h which that step executes. Mutex
 and condition variables are abstract: a timed wait may return at any moment.
 */
module MuleModel {
  import opened Basics

  /** `item` was claimed, or run by the kernel, on behalf of `worker`. */
  datatype Run = Run(item: nat, worker: nat)

  /** What happened since the last reset. */
  datatype Log = Log(claims: seq<Run>, done: seq<Run>, failed: nat, signals: nat)

  /** The atomic fields of `mu_mule`. */
  datatype Pool = Pool(
    queued: nat, processing: nat, processed: nat,
    running: bool, threadsRunning: int, mutex: Lock, log: Log)

  datatype Worker =
    | Absent                                    // not created, or joined
    | Starting                                  // 157
    | LoadQueued                                // 171
    | LoadProcessing(queued: nat)               // 172
    | Test(queued: nat, seen: nat)              // 175
    | LockIdle                                  // 180
    | CheckRunning                              // 181
    | Quit                                      // 182-183
    | BeginWait                                 // 198, releasing the mutex
    | Waiting                                   // 198, until woken or timed out
    | WaitDone                                  // 200
    | Claim(queued: nat, seen: nat)             // 206-208
    | Kernel(queued: nat, item: nat)            // 210
    | Count(queued: nat)                        // 212
    | CheckLast(queued: nat, processed: nat)    // 215
    | Signal                                    // 228
    | Retire                                    // 232
    | Exited                                    // 235

  datatype Client =
    | Outside
    | StartLock | StartCheck | StartRefuse      // 248, 249, 250
    | StartSet | Create(i: nat) | StartUnlock   // 259, 262-263, 265
    | SyncLock(reset: bool)                     // 280
    | SyncLoadQueued(reset: bool)               // 292
    | SyncLoadProcessed(reset: bool, queued: nat)               // 293
    | SyncTest(reset: bool, queued: nat, processed: nat)        // 294
    | SyncBeginWait(reset: bool) | SyncWaiting(reset: bool)     // 308
    | SyncUnlock(reset: bool)                   // 314
    | ResetQueued | ResetProcessing | ResetProcessed            // 325, 326, 327
    | StopLock | StopCheck | StopRefuse         // 335, 337, 338
    | StopClear | StopUnlock                    // 345, 346
    | Join(i: nat)                              // 350-353

  datatype State = State(pool: Pool, workers: seq<Worker>, client: Client)

  datatype Event =
    | WorkerStep(t: nat)
    | ClientStep
    | CallStart | CallSync | CallReset | CallStop
    | Submit(count: nat)                        // 241, by any thread

  datatype After = After(pool: Pool, w: Worker)

  const EMPTY_LOG: Log := Log([], [], 0, 0)

  /** `mule_init` (134-143). */
  function Init(n: nat): State {
    State(Pool(0, 0, 0, false, 0, Free, EMPTY_LOG), seq(n, _ => Absent), Outside)
  }

  predicate WorkerCan(s: Pool, w: Worker) {
    !w.Absent? && !w.Exited? && (w.LockIdle? || w.Waiting? ==> s.mutex == Free)
  }

  /** One step of worker `t` in `mule_thread` (157-232). */
  function WorkerAct(s: Pool, t: nat, w: Worker): After
    requires WorkerCan(s, w)
  {
    match w
    case Starting => After(s.(threadsRunning := s.threadsRunning + 1), LoadQueued)
    case LoadQueued => After(s, LoadProcessing(s.queued))
    case LoadProcessing(q) => After(s, Test(q, s.processing))
    case Test(q, p) => After(s, if p == q then LockIdle else Claim(q, p))
    case LockIdle => After(s.(mutex := HeldBy(t)), CheckRunning)
    case CheckRunning => After(s, if s.running then BeginWait else Quit)
    case Quit => After(s.(mutex := Free), Retire)
    case BeginWait => After(s.(mutex := Free), Waiting)
    case Waiting => After(s.(mutex := HeldBy(t)), WaitDone)
    case WaitDone => After(s.(mutex := Free), LoadQueued)
    case Claim(q, p) =>
      if s.processing == p then
        After(s.(processing := p + 1, log := s.log.(claims := s.log.claims + [Run(p + 1, t)])), Kernel(q, p + 1))
      else
        After(s.(log := s.log.(failed := s.log.failed + 1)), LoadQueued)
    case Kernel(q, item) => After(s.(log := s.log.(done := s.log.done + [Run(item, t)])), Count(q))
    case Count(q) => After(s.(processed := s.processed + 1), CheckLast(q, s.processed))
    case CheckLast(q, d) => After(s, if d + 1 == q then Signal else LoadQueued)
    case Signal => After(s.(log := s.log.(signals := s.log.signals + 1)), LoadQueued)
    case Retire => After(s.(threadsRunning := s.threadsRunning - 1), Exited)
  }

  predicate ClientCan(s: State) {
    match s.client
    case Outside => false
    case StartLock => s.pool.mutex == Free
    case SyncLock(_) => s.pool.mutex == Free
    case SyncWaiting(_) => s.pool.mutex == Free
    case StopLock => s.pool.mutex == Free
    case Join(i) => i < |s.workers| ==> s.workers[i].Exited?
    case _ => true
  }

  function Locked(s: State, c: Client): State {
    s.(pool := s.pool.(mutex := HeldBy(|s.workers|)), client := c)
  }

  function Unlocked(s: State, c: Client): State {
    s.(pool := s.pool.(mutex := Free), client := c)
  }

  /** One step of the client inside `mule_start`, `mule_sync`, `mule_reset` or `mule_stop`. */
  function ClientAct(s: State): State
    requires ClientCan(s)
  {
    match s.client
    case StartLock => Locked(s, StartCheck)
    case StartCheck => s.(client := if s.pool.running then StartRefuse else StartSet)
    case StartRefuse => Unlocked(s, Outside)
    case StartSet => s.(pool := s.pool.(running := true), client := Create(0))
    case Create(i) =>
      if i < |s.workers| then s.(workers := s.workers[i := Starting], client := Create(i + 1))
      else s.(client := StartUnlock)
    case StartUnlock => Unlocked(s, Outside)
    case SyncLock(r) => Locked(s, SyncLoadQueued(r))
    case SyncLoadQueued(r) => s.(client := SyncLoadProcessed(r, s.pool.queued))
    case SyncLoadProcessed(r, q) => s.(client := SyncTest(r, q, s.pool.processed))
    case SyncTest(r, q, d) => s.(client := if d < q then SyncBeginWait(r) else SyncUnlock(r))
    case SyncBeginWait(r) => Unlocked(s, SyncWaiting(r))
    case SyncWaiting(r) => Locked(s, SyncLoadQueued(r))
    case SyncUnlock(r) => Unlocked(s, if r then ResetQueued else Outside)
    case ResetQueued => s.(pool := s.pool.(queued := 0), client := ResetProcessing)
    case ResetProcessing => s.(pool := s.pool.(processing := 0), client := ResetProcessed)
    case ResetProcessed => s.(pool := s.pool.(processed := 0, log := EMPTY_LOG), client := Outside)
    case StopLock => Locked(s, StopCheck)
    case StopCheck => s.(client := if s.pool.running then StopClear else StopRefuse)
    case StopRefuse => Unlocked(s, Outside)
    case StopClear => s.(pool := s.pool.(running := false), client := StopUnlock)
    case StopUnlock => Unlocked(s, Join(0))
    case Join(i) =>
      if i < |s.workers| then s.(workers := s.workers[i := Absent], client := Join(i + 1))
      else s.(client := Outside)
  }

  predicate Enabled(s: State, e: Event) {
    match e
    case WorkerStep(t) => t < |s.workers| && WorkerCan(s.pool, s.workers[t])
    case ClientStep => ClientCan(s)
    case Submit(_) => true
    case _ => s.client == Outside
  }

  function Next(s: State, e: Event): State
    requires Enabled(s, e)
  {
    match e
    case WorkerStep(t) =>
      var a := WorkerAct(s.pool, t, s.workers[t]);
      s.(pool := a.pool, workers := s.workers[t := a.w])
    case ClientStep => ClientAct(s)
    case CallStart => s.(client := StartLock)
    case CallSync => s.(client := SyncLock(false))
    case CallReset => s.(client := SyncLock(true))
    case CallStop => s.(client := StopLock)
    case Submit(n) => s.(pool := s.pool.(queued := s.pool.queued + n))
  }

  predicate Legal(s: State, es: seq<Event>)
    decreases |es|
  {
    es == [] || (Enabled(s, es[0]) && Legal(Next(s, es[0]), es[1..]))
  }

  function Exec(s: State, es: seq<Event>): State
    requires Legal(s, es)
    decreases |es|
  {
    if es == [] then s else Exec(Next(s, es[0]), es[1..])
  }

  /** The schedule `es` leads from `s0` to `s`. */
  ghost predicate Leads(s0: State, es: seq<Event>, s: State) {
    Legal(s0, es) && Exec(s0, es) == s
  }

  lemma {:induction false} ExecAppend(s: State, es: seq<Event>, e: Event)
    requires Legal(s, es) && Enabled(Exec(s, es), e)
    ensures Leads(s, es + [e], Next(Exec(s, es), e))
    decreases |es|
  {
    if es == [] {
      assert [e][1..] == [];
    } else {
      assert (es + [e])[1..] == es[1..] + [e];
      ExecAppend(Next(s, es[0]), es[1..], e);
    }
  }

  /** One schedule after another. */
  lemma {:induction false} LeadsThrough(s0: State, a: seq<Event>, s1: State, b: seq<Event>, s2: State)
    requires Leads(s0, a, s1) && Leads(s1, b, s2)
    ensures Leads(s0, a + b, s2)
    decreases |a|
  {
    if a == [] {
      assert a + b == b;
    } else {
      assert (a + b)[1..] == a[1..] + b;
      LeadsThrough(Next(s0, a[0]), a[1..], s1, b, s2);
    }
  }

  /** Extends a schedule by one event. */
  lemma Then(s0: State, es: seq<Event>, s: State, e: Event, s': State) returns (es': seq<Event>)
    requires Leads(s0, es, s) && Enabled(s, e) && Next(s, e) == s'
    ensures es' == es + [e] && Leads(s0, es', s')
  {
    es' := es + [e];
    ExecAppend(s0, es, e);
  }

  /** Worker `t` makes one step. */
  lemma Works(s0: State, es: seq<Event>, s: State, t: nat, a: After) returns (es': seq<Event>, s': State)
    requires Leads(s0, es, s) && t < |s.workers| && WorkerCan(s.pool, s.workers[t])
    requires WorkerAct(s.pool, t, s.workers[t]) == a
    ensures es' == es + [WorkerStep(t)] && Leads(s0, es', s')
    ensures s' == s.(pool := a.pool, workers := s.workers[t := a.w])
  {
    s' := s.(pool := a.pool, workers := s.workers[t := a.w]);
    es' := Then(s0, es, s, WorkerStep(t), s');
  }

  // ----- when events may happen

  predicate AllAbsent(s: State) {
    forall t :: 0 <= t < |s.workers| ==> s.workers[t].Absent?
  }

  predicate Resetting(c: Client) {
    c.ResetQueued? || c.ResetProcessing? || c.ResetProcessed? ||
    ((c.SyncLock? || c.SyncLoadQueued? || c.SyncLoadProcessed? || c.SyncTest? ||
      c.SyncBeginWait? || c.SyncWaiting? || c.SyncUnlock?) && c.reset)
  }

  /** `mule_reset` is called only while no worker lives, and nothing is submitted during it. */
  predicate ResetAlone(s: State, e: Event) {
    (e.CallReset? ==> AllAbsent(s) && !s.pool.running) && (e.Submit? ==> !Resetting(s.client))
  }

  /** A step of a worker, or of the client inside a call. */
  predicate Internal(e: Event) { e.WorkerStep? || e.ClientStep? }

  /** Submits nothing and resets nothing. */
  predicate Harmless(e: Event) { !e.Submit? && !e.CallReset? }

  /** No worker is between its loads of `queued` and of `processing`. */
  predicate WindowClosed(s: State) {
    forall t :: 0 <= t < |s.workers| ==> !s.workers[t].LoadProcessing?
  }

  /** No submit lands between a worker's two loads, unless there is only one worker. */
  predicate Polite(s: State, e: Event) {
    ResetAlone(s, e) && (e.Submit? && |s.workers| != 1 ==> WindowClosed(s))
  }

  /** Submits only before workers are started or after they are joined. */
  predicate Early(s: State, e: Event) {
    ResetAlone(s, e) && (e.Submit? ==> AllAbsent(s) && s.client == Outside)
  }
}
