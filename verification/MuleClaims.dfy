/**
 Exactly-once claiming: as long as no submit lands between a worker's two loads, the items claimed
 are exactly 1..processing, each by one worker, and each claim is run by the kernel once. A pool of
 one worker needs no such condition.
 */
module MuleClaims {
  import opened Tally
  import opened MuleModel

  // ----- claims on the record

  /** The thread is between a won claim and its increment of `processed`. */
  function Busy(w: Worker): nat { if w.Kernel? || w.Count? then 1 else 0 }

  /** Worker `t` is inside the kernel on behalf of the claim `r`. */
  predicate Executes(ws: seq<Worker>, r: Run) {
    r.worker < |ws| && ws[r.worker].Kernel? && ws[r.worker].item == r.item
  }

  /** Claims are numbered 1, 2, 3, ... in the order they were won. */
  ghost predicate Numbered(claims: seq<Run>, n: nat) {
    forall i :: 0 <= i < |claims| ==> claims[i].item == i + 1 && claims[i].worker < n
  }

  ghost predicate Distinct(rs: seq<Run>) {
    forall i, j :: 0 <= i < j < |rs| ==> rs[i] != rs[j]
  }

  /**
   The kernel has finished, once and for its claimer, every claim that no worker is executing, and
   nothing else.
   */
  ghost predicate RunsMatchClaims(log: Log, ws: seq<Worker>) {
    && Distinct(log.done)
    && (forall r :: r in log.done ==> r in log.claims)
    && (forall r :: r in log.claims ==> (r in log.done <==> !Executes(ws, r)))
    && (forall t :: 0 <= t < |ws| && ws[t].Kernel? ==> Run(ws[t].item, t) in log.claims)
  }

  // ----- who lives when

  ghost predicate AllPresent(s: State) {
    forall t :: 0 <= t < |s.workers| ==> !s.workers[t].Absent?
  }

  /** Which workers exist, by what the client is doing. */
  ghost predicate Lifecycle(s: State) {
    match s.client
    case StartSet => AllAbsent(s) && !s.pool.running
    case Create(i) =>
      && s.pool.running && i <= |s.workers|
      && (forall t :: 0 <= t < i ==> !s.workers[t].Absent?)
      && (forall t :: i <= t < |s.workers| ==> s.workers[t].Absent?)
    case StopClear => AllPresent(s) && s.pool.running
    case StopUnlock => AllPresent(s) && !s.pool.running
    case Join(i) =>
      && !s.pool.running && i <= |s.workers|
      && (forall t :: 0 <= t < i ==> s.workers[t].Absent?)
      && (forall t :: i <= t < |s.workers| ==> !s.workers[t].Absent?)
    case _ =>
      if s.pool.running then AllPresent(s) else AllAbsent(s)
  }

  // ----- the invariant

  /**
   What a worker's local variables know about the counters. A worker whose load of `queued` is out of
   date still does no harm if it is `alone`, the only one that can advance `processing`.
   */
  ghost predicate WorkerOk(s: Pool, alone: bool, w: Worker) {
    match w
    case LoadProcessing(q) => q == s.queued || (alone && s.processing <= q <= s.queued)
    case Test(q, p) => p <= q <= s.queued && p <= s.processing
    case Claim(q, p) => p < q <= s.queued && p <= s.processing
    case Kernel(q, item) => 1 <= item <= s.processing && q <= s.queued
    case Count(q) => q <= s.queued
    case CheckLast(q, d) => q <= s.queued && d < s.processed
    case _ => true
  }

  predicate Storing(c: Client) { c.ResetProcessing? || c.ResetProcessed? }

  ghost predicate Counted(s: State) {
    && s.pool.processed + Sum(s.workers, Busy) == s.pool.processing <= s.pool.queued
    && |s.pool.log.claims| == s.pool.processing
    && Numbered(s.pool.log.claims, |s.workers|)
    && RunsMatchClaims(s.pool.log, s.workers)
  }

  ghost predicate WorkersOk(s: State, alone: bool) {
    forall t :: 0 <= t < |s.workers| ==> WorkerOk(s.pool, alone, s.workers[t])
  }

  ghost predicate ResetOk(s: State) {
    && (Resetting(s.client) ==> AllAbsent(s) && !s.pool.running)
    && (Storing(s.client) ==> s.pool.queued == 0)
    && (s.client.ResetProcessed? ==> s.pool.processing == 0)
  }

  ghost predicate Sound(s: State, alone: bool) {
    ResetOk(s) && WorkersOk(s, alone) && (!Storing(s.client) ==> Counted(s))
  }

  ghost predicate Claimed(s: State) {
    Sound(s, |s.workers| == 1)
  }

  lemma InitClaimed(n: nat)
    ensures Claimed(Init(n))
  {
    SumZero(Init(n).workers, Busy);
  }

  /** What a step of worker `t` does to the counters and the record. */
  ghost predicate Advances(s: Pool, alone: bool, t: nat, w: Worker, s': Pool, w': Worker) {
    && WorkerOk(s', alone, w')
    && s'.queued == s.queued && s'.processed >= s.processed
    && s'.processed + Busy(w') + s.processing == s.processed + Busy(w) + s'.processing
    && s'.processing == s.processing + (if w.Claim? && w'.Kernel? then 1 else 0)
    && (w.Claim? && w'.Kernel? ==> s.processing < s.queued)
    && s'.log.claims == s.log.claims + (if w.Claim? && w'.Kernel? then [Run(s'.processing, t)] else [])
    && s'.log.done == s.log.done + (if w.Kernel? then [Run(w.item, t)] else [])
    && (w'.Kernel? <==> w.Claim? && s.processing == w.seen) && (w'.Kernel? ==> w'.item == s'.processing)
  }

  lemma WorkerAdvances(s: Pool, alone: bool, t: nat, w: Worker, a: After)
    requires WorkerCan(s, w) && a == WorkerAct(s, t, w) && WorkerOk(s, alone, w)
    requires s.processing <= s.queued
    ensures Advances(s, alone, t, w, a.pool, a.w)
  {
  }

  /** Claims and finished runs move together: what a worker runs it has claimed. */
  lemma RunsStillMatch(s: State, t: nat, s': State, alone: bool)
    requires t < |s.workers| == |s'.workers| && s'.workers == s.workers[t := s'.workers[t]]
    requires Advances(s.pool, alone, t, s.workers[t], s'.pool, s'.workers[t])
    requires Numbered(s.pool.log.claims, |s.workers|) && |s.pool.log.claims| == s.pool.processing
    requires RunsMatchClaims(s.pool.log, s.workers)
    ensures RunsMatchClaims(s'.pool.log, s'.workers)
  {
    var w, w' := s.workers[t], s'.workers[t];
    if w'.Kernel? {
      assert Run(w'.item, t) !in s.pool.log.claims;
    } else if w.Kernel? {
      assert Executes(s.workers, Run(w.item, t));
      assert Run(w.item, t) !in s.pool.log.done;
    }
  }

  /** Nobody else is between its loads of `queued` and `processing`. */
  ghost predicate OthersClosed(s: State, t: nat) {
    forall u :: 0 <= u < |s.workers| && u != t ==> !s.workers[u].LoadProcessing?
  }

  lemma OthersOk(s: State, t: nat, s': State, alone: bool)
    requires WorkersOk(s, alone) && t < |s.workers| == |s'.workers|
    requires s'.workers == s.workers[t := s'.workers[t]]
    requires Advances(s.pool, alone, t, s.workers[t], s'.pool, s'.workers[t])
    requires alone && s.workers[t].Claim? ==> OthersClosed(s, t)
    ensures WorkersOk(s', alone)
  {
    forall u | 0 <= u < |s'.workers|
      ensures WorkerOk(s'.pool, alone, s'.workers[u])
    {
      assert WorkerOk(s.pool, alone, s.workers[u]);
    }
  }

  lemma WorkerKeepsSound(s: State, t: nat, alone: bool)
    requires Sound(s, alone) && Enabled(s, WorkerStep(t))
    requires alone && s.workers[t].Claim? ==> OthersClosed(s, t)
    ensures Sound(Next(s, WorkerStep(t)), alone)
    ensures var s' := Next(s, WorkerStep(t));
            Advances(s.pool, alone, t, s.workers[t], s'.pool, s'.workers[t])
  {
    var a := WorkerAct(s.pool, t, s.workers[t]);
    var s' := Next(s, WorkerStep(t));
    assert !Resetting(s.client);
    WorkerAdvances(s.pool, alone, t, s.workers[t], a);
    SumUpdate(s.workers, t, a.w, Busy);
    RunsStillMatch(s, t, s', alone);
    OthersOk(s, t, s', alone);
  }

  /** Creating or joining a worker outside the kernel leaves totals and record as they were. */
  lemma Replaced(log: Log, ws: seq<Worker>, i: nat, w: Worker)
    requires i < |ws| && !ws[i].Kernel? && !ws[i].Count? && !w.Kernel? && !w.Count?
    requires RunsMatchClaims(log, ws)
    ensures Sum(ws[i := w], Busy) == Sum(ws, Busy) && RunsMatchClaims(log, ws[i := w])
  {
    SumUpdate(ws, i, w, Busy);
    assert forall r :: Executes(ws[i := w], r) <==> Executes(ws, r);
  }

  /** The steps that create or join workers. */
  predicate ChangesWorkers(c: Client) { c.Create? || c.Join? }

  /** The three stores of `mule_reset`. */
  predicate Resets(c: Client) { c.ResetQueued? || c.ResetProcessing? || c.ResetProcessed? }

  lemma ChangeKeepsSound(s: State, alone: bool)
    requires Sound(s, alone) && ClientCan(s) && Lifecycle(s) && ChangesWorkers(s.client)
    ensures Sound(ClientAct(s), alone)
  {
    if s.client.i < |s.workers| {
      Replaced(s.pool.log, s.workers, s.client.i, if s.client.Create? then Starting else Absent);
    }
  }

  lemma ResetKeepsSound(s: State, alone: bool)
    requires Sound(s, alone) && Resets(s.client)
    ensures Sound(ClientAct(s), alone)
  {
    SumZero(s.workers, Busy);
  }

  lemma OtherClientStep(s: State)
    requires ClientCan(s) && !ChangesWorkers(s.client) && !Resets(s.client)
    ensures var s' := ClientAct(s);
      && s'.workers == s.workers && s'.pool == s.pool.(mutex := s'.pool.mutex, running := s'.pool.running)
      && !Storing(s'.client) && (Resetting(s'.client) ==> Resetting(s.client) && s'.pool.running == s.pool.running)
  {
  }

  lemma ClientKeepsSound(s: State, alone: bool)
    requires Sound(s, alone) && ClientCan(s) && Lifecycle(s)
    ensures Sound(ClientAct(s), alone)
  {
    if ChangesWorkers(s.client) {
      ChangeKeepsSound(s, alone);
    } else if Resets(s.client) {
      ResetKeepsSound(s, alone);
    } else {
      OtherClientStep(s);
      assert forall w :: WorkerOk(s.pool, alone, w) ==> WorkerOk(ClientAct(s).pool, alone, w);
    }
  }

  lemma SubmitKeepsSound(s: State, count: nat, alone: bool)
    requires Sound(s, alone) && !Resetting(s.client) && (alone || WindowClosed(s))
    ensures Sound(Next(s, Submit(count)), alone)
  {
    forall t | 0 <= t < |s.workers|
      ensures WorkerOk(Next(s, Submit(count)).pool, alone, s.workers[t])
    {
      assert WorkerOk(s.pool, alone, s.workers[t]);
    }
  }

  lemma CallKeepsSound(s: State, e: Event, alone: bool)
    requires Sound(s, alone) && Enabled(s, e) && ResetAlone(s, e)
    requires e.CallStart? || e.CallSync? || e.CallReset? || e.CallStop?
    ensures Sound(Next(s, e), alone)
  {
    assert forall w :: WorkerOk(s.pool, alone, w) ==> WorkerOk(Next(s, e).pool, alone, w);
  }

  lemma StepKeepsClaimed(s: State, e: Event)
    requires Claimed(s) && Lifecycle(s) && Enabled(s, e) && Polite(s, e)
    ensures Claimed(Next(s, e))
  {
    var alone := |s.workers| == 1;
    match e
    case WorkerStep(t) => WorkerKeepsSound(s, t, alone);
    case ClientStep => ClientKeepsSound(s, alone);
    case Submit(n) => SubmitKeepsSound(s, n, alone);
    case _ => CallKeepsSound(s, e, alone);
  }

  // ----- workers live between start and join

  lemma WorkerKeepsLifecycle(s: State, t: nat)
    requires Lifecycle(s) && Enabled(s, WorkerStep(t))
    ensures Lifecycle(Next(s, WorkerStep(t)))
  {
    assert !s.workers[t].Absent? && !WorkerAct(s.pool, t, s.workers[t]).w.Absent?;
  }

  lemma ChangeKeepsLifecycle(s: State)
    requires Lifecycle(s) && ClientCan(s) && ChangesWorkers(s.client)
    ensures Lifecycle(ClientAct(s))
  {
  }

  lemma ClientKeepsLifecycle(s: State)
    requires Lifecycle(s) && ClientCan(s) && !ChangesWorkers(s.client)
    ensures Lifecycle(ClientAct(s))
  {
    assert ClientAct(s).workers == s.workers;
  }

  lemma StepKeepsLifecycle(s: State, e: Event)
    requires Lifecycle(s) && Enabled(s, e)
    ensures Lifecycle(Next(s, e))
  {
    match e
    case WorkerStep(t) => WorkerKeepsLifecycle(s, t);
    case ClientStep =>
      if ChangesWorkers(s.client) {
        ChangeKeepsLifecycle(s);
      } else {
        ClientKeepsLifecycle(s);
      }
    case _ =>
  }

  // ----- whole runs

  ghost predicate PoliteRun(s: State, es: seq<Event>)
    requires Legal(s, es)
    decreases |es|
  {
    es != [] ==> Polite(s, es[0]) && PoliteRun(Next(s, es[0]), es[1..])
  }

  /** Exactly-once claiming holds in every state of every polite run. */
  lemma {:induction false} RunKeepsClaimed(s: State, es: seq<Event>)
    requires Claimed(s) && Lifecycle(s) && Legal(s, es) && PoliteRun(s, es)
    ensures Claimed(Exec(s, es)) && Lifecycle(Exec(s, es))
    decreases |es|
  {
    if es != [] {
      StepKeepsClaimed(s, es[0]);
      StepKeepsLifecycle(s, es[0]);
      RunKeepsClaimed(Next(s, es[0]), es[1..]);
    }
  }

  /** Resets find no live worker; submits are otherwise unrestricted. */
  ghost predicate ResetsAlone(s: State, es: seq<Event>)
    requires Legal(s, es)
    decreases |es|
  {
    es != [] ==> ResetAlone(s, es[0]) && ResetsAlone(Next(s, es[0]), es[1..])
  }

  /** No two entries are about the same item. */
  ghost predicate OncePerItem(rs: seq<Run>) {
    forall i, j :: 0 <= i < |rs| && 0 <= j < |rs| && rs[i].item == rs[j].item ==> i == j
  }

  /**
   Each item up to `processing` belongs to one claim, the kernel runs it at most once, and it has
   run unless its claimer is running it now. Nothing beyond `queued` is ever claimed or run.
   */
  lemma ExactlyOnce(s: State, item: nat)
    requires Claimed(s) && !Storing(s.client)
    ensures s.pool.processed <= s.pool.processing <= s.pool.queued
    ensures s.pool.processing - s.pool.processed == Sum(s.workers, Busy)
    ensures 1 <= item <= s.pool.processing ==>
              var r := s.pool.log.claims[item - 1];
              r.item == item && (r in s.pool.log.done || Executes(s.workers, r))
    ensures item == 0 || item > s.pool.processing ==>
              forall r :: r in s.pool.log.claims || r in s.pool.log.done ==> r.item != item
    ensures OncePerItem(s.pool.log.claims) && OncePerItem(s.pool.log.done)
  {
    var log := s.pool.log;
    forall i, j | 0 <= i < |log.done| && 0 <= j < |log.done| && log.done[i].item == log.done[j].item
      ensures i == j
    {
      assert log.done[i] in log.claims && log.done[j] in log.claims;
      assert log.done[i] == log.done[j];
    }
  }

  /** When all counters meet, every claim has been run and nobody is inside the kernel. */
  lemma AllFinished(s: State)
    requires Claimed(s) && !Storing(s.client) && s.pool.processed == s.pool.queued
    ensures s.pool.processing == s.pool.queued == |s.pool.log.claims|
    ensures forall t :: 0 <= t < |s.workers| ==> !s.workers[t].Kernel? && !s.workers[t].Count?
    ensures forall i :: 0 <= i < s.pool.queued ==>
              s.pool.log.claims[i].item == i + 1 && s.pool.log.claims[i] in s.pool.log.done
  {
    forall t | 0 <= t < |s.workers|
      ensures Busy(s.workers[t]) == 0
    {
      SumAtLeast(s.workers, t, Busy);
    }
    forall i | 0 <= i < s.pool.queued
      ensures s.pool.log.claims[i] in s.pool.log.done
    {
      assert s.pool.log.claims[i] in s.pool.log.claims;
    }
  }

  // ----- a pool of one worker

  lemma {:induction false} AloneIsPolite(s: State, es: seq<Event>)
    requires |s.workers| == 1 && Legal(s, es) && ResetsAlone(s, es)
    ensures PoliteRun(s, es) && |Exec(s, es).workers| == 1
    decreases |es|
  {
    if es != [] {
      AloneIsPolite(Next(s, es[0]), es[1..]);
    }
  }

  /**
   One worker claims and runs each submitted item once on every run from `mule_init`, with submits
   landing at any moment, also between its two loads.
   */
  lemma OneWorkerClaimsOnce(es: seq<Event>, item: nat)
    requires Legal(Init(1), es) && ResetsAlone(Init(1), es)
    ensures var z := Exec(Init(1), es);
      && Claimed(z) && |z.workers| == 1
      && (!Storing(z.client) ==>
            && z.pool.processed <= z.pool.processing <= z.pool.queued
            && z.pool.processing - z.pool.processed == Busy(z.workers[0])
            && OncePerItem(z.pool.log.claims) && OncePerItem(z.pool.log.done)
            && (Run(item, 0) in z.pool.log.claims <==> 1 <= item <= z.pool.processing)
            && (Run(item, 0) in z.pool.log.done <==>
                  1 <= item <= z.pool.processing && !(z.workers[0].Kernel? && z.workers[0].item == item)))
  {
    var z := Exec(Init(1), es);
    InitClaimed(1);
    AloneIsPolite(Init(1), es);
    RunKeepsClaimed(Init(1), es);
    if !Storing(z.client) {
      ExactlyOnce(z, item);
      if 1 <= item <= z.pool.processing {
        assert z.pool.log.claims[item - 1] == Run(item, 0);
      }
    }
  }
}
