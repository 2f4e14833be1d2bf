/**
 `mu_mule` as an object: workers and the client update its atomic counters in place, one operation
 at a time. Each method is proved against the step machine of MuleModel and keeps its invariants.
 */
module MuleObject {
  import opened Basics
  import opened MuleModel
  import opened MuleClaims
  import opened MuleFailures
  import opened MuleInvariant

  class Mule {
    var queued: nat
    var processing: nat
    var processed: nat
    var running: bool
    var threadsRunning: int
    var mutex: Lock
    const threads: array<Worker>
    var client: Client
    ghost var log: Log

    ghost function Counters(): Pool
      reads this
    {
      Pool(queued, processing, processed, running, threadsRunning, mutex, log)
    }

    ghost function Snapshot(): State
      reads this, threads
    {
      State(Counters(), threads[..], client)
    }

    /** Who lives, who holds the mutex and who may leave; kept whatever is called when. */
    ghost predicate Valid()
      reads this, threads
    {
      Orderly(Snapshot())
    }

    /** `mule_init` (134-143). */
    constructor (numThreads: nat)
      ensures Snapshot() == Init(numThreads) && fresh(threads)
      ensures Valid() && Claimed(Snapshot()) && FailuresBounded(Snapshot())
    {
      queued, processing, processed := 0, 0, 0;
      running, threadsRunning, mutex, client := false, 0, Free, Outside;
      threads := new Worker[numThreads](_ => Absent);
      log := EMPTY_LOG;
      new;
      assert threads[..] == Init(numThreads).workers;
      InitClaimed(numThreads);
      InitFailures(numThreads);
    }

    /** `mule_submit` (238-244): returns the index of its last item. */
    method DoSubmit(count: nat) returns (last: nat)
      requires Valid()
      modifies this`queued
      ensures Valid() && Snapshot() == Next(old(Snapshot()), Submit(count))
      ensures last == queued == old(queued) + count
      ensures old(Claimed(Snapshot()) && Polite(Snapshot(), Submit(count))) ==> Claimed(Snapshot())
    {
      ghost var s := Snapshot();
      var idx := queued;
      queued := queued + count;
      assert Snapshot() == Next(s, Submit(count));
      StepKeepsOrder(s, Submit(count));
      if Claimed(s) && Polite(s, Submit(count)) {
        StepKeepsClaimed(s, Submit(count));
      }
      return idx + count;
    }

    /** `atomic_compare_exchange_weak` on `processing` (207), strong in this emulation. */
    method CompareExchangeProcessing(expected: nat, desired: nat) returns (ok: bool)
      modifies this`processing
      ensures ok == (old(processing) == expected)
      ensures processing == if ok then desired else old(processing)
    {
      ok := processing == expected;
      if ok {
        processing := desired;
      }
    }

    /**
     One operation of `mule_thread` (157-232) by worker `t`. If claiming was exactly-once it stays so:
     the counters keep their order, and the only item it may claim is the next one, for itself.
     */
    method WorkerRuns(t: nat)
      requires Valid() && Enabled(Snapshot(), WorkerStep(t))
      modifies this, threads
      ensures Valid() && Snapshot() == Next(old(Snapshot()), WorkerStep(t))
      ensures old(Claimed(Snapshot())) ==>
                && Claimed(Snapshot())
                && old(processed) <= processed <= processing <= queued == old(queued)
                && (log.claims == old(log.claims) || log.claims == old(log.claims) + [Run(old(processing) + 1, t)])
    {
      ghost var s := Snapshot();
      WorkerLine(t);
      StepKeepsOrder(s, WorkerStep(t));
      if Claimed(s) {
        assert !Storing(s.client);
        WorkerKeepsSound(s, t, |s.workers| == 1);
      }
    }

    /** The line worker `t` stands at. */
    method WorkerLine(t: nat)
      requires Enabled(Snapshot(), WorkerStep(t))
      modifies this, threads
      ensures Snapshot() == Next(old(Snapshot()), WorkerStep(t))
    {
      ghost var before := threads[..];
      var w := threads[t];
      match w {
        case Starting =>
          threadsRunning := threadsRunning + 1;
          threads[t] := LoadQueued;
        case LoadQueued =>
          threads[t] := LoadProcessing(queued);
        case LoadProcessing(q) =>
          threads[t] := Test(q, processing);
        case Test(q, p) =>
          threads[t] := if p == q then LockIdle else Claim(q, p);
        case LockIdle =>
          mutex := HeldBy(t);
          threads[t] := CheckRunning;
        case CheckRunning =>
          threads[t] := if running then BeginWait else Quit;
        case Quit =>
          mutex := Free;
          threads[t] := Retire;
        case BeginWait =>
          mutex := Free;
          threads[t] := Waiting;
        case Waiting =>
          mutex := HeldBy(t);
          threads[t] := WaitDone;
        case WaitDone =>
          mutex := Free;
          threads[t] := LoadQueued;
        case Claim(q, p) =>
          var item := p + 1;
          var ok := CompareExchangeProcessing(p, item);
          if ok {
            log := log.(claims := log.claims + [Run(item, t)]);
            threads[t] := Kernel(q, item);
          } else {
            log := log.(failed := log.failed + 1);
            threads[t] := LoadQueued;
          }
        case Kernel(q, item) =>
          log := log.(done := log.done + [Run(item, t)]);
          threads[t] := Count(q);
        case Count(q) =>
          var d := processed;
          processed := processed + 1;
          threads[t] := CheckLast(q, d);
        case CheckLast(q, d) =>
          threads[t] := if d + 1 == q then Signal else LoadQueued;
        case Signal =>
          log := log.(signals := log.signals + 1);
          threads[t] := LoadQueued;
        case Retire =>
          threadsRunning := threadsRunning - 1;
          threads[t] := Exited;
      }
      assert threads[..] == before[t := threads[t]];
    }

    /**
     One operation of `mule_start`, `mule_sync`, `mule_reset` or `mule_stop` (246-356). Only a reset
     touches the counters, and exactly-once claiming survives it.
     */
    method ClientRuns()
      requires Valid() && Enabled(Snapshot(), ClientStep)
      modifies this, threads
      ensures Valid() && Snapshot() == Next(old(Snapshot()), ClientStep)
      ensures old(Claimed(Snapshot())) ==> Claimed(Snapshot())
      ensures !old(Resets(client)) ==>
                queued == old(queued) && processing == old(processing) && processed == old(processed) && log == old(log)
    {
      ghost var s := Snapshot();
      ClientLine();
      StepKeepsOrder(s, ClientStep);
      if Claimed(s) {
        ClientKeepsSound(s, |s.workers| == 1);
      }
    }

    /** The line the client stands at. */
    method ClientLine()
      requires Enabled(Snapshot(), ClientStep)
      modifies this, threads
      ensures Snapshot() == Next(old(Snapshot()), ClientStep)
    {
      ghost var before := threads[..];
      match client {
        case StartLock => Take(StartCheck);
        case StartCheck => client := if running then StartRefuse else StartSet;
        case StartRefuse => Give(Outside);
        case StartSet =>
          running := true;
          client := Create(0);
        case Create(i) =>
          if i < threads.Length {
            threads[i] := Starting;
            assert threads[..] == before[i := Starting];
            client := Create(i + 1);
          } else {
            client := StartUnlock;
          }
        case StartUnlock => Give(Outside);
        case SyncLock(r) => Take(SyncLoadQueued(r));
        case SyncLoadQueued(r) => client := SyncLoadProcessed(r, queued);
        case SyncLoadProcessed(r, q) => client := SyncTest(r, q, processed);
        case SyncTest(r, q, d) => client := if d < q then SyncBeginWait(r) else SyncUnlock(r);
        case SyncBeginWait(r) => Give(SyncWaiting(r));
        case SyncWaiting(r) => Take(SyncLoadQueued(r));
        case SyncUnlock(r) => Give(if r then ResetQueued else Outside);
        case ResetQueued =>
          queued := 0;
          client := ResetProcessing;
        case ResetProcessing =>
          processing := 0;
          client := ResetProcessed;
        case ResetProcessed =>
          processed := 0;
          log := EMPTY_LOG;
          client := Outside;
        case StopLock => Take(StopCheck);
        case StopCheck => client := if running then StopClear else StopRefuse;
        case StopRefuse => Give(Outside);
        case StopClear =>
          running := false;
          client := StopUnlock;
        case StopUnlock => Give(Join(0));
        case Join(i) =>
          if i < threads.Length {
            threads[i] := Absent;
            assert threads[..] == before[i := Absent];
            client := Join(i + 1);
          } else {
            client := Outside;
          }
      }
    }

    /** `mtx_lock` by the client. */
    method Take(c: Client)
      modifies this`mutex, this`client
      ensures mutex == HeldBy(threads.Length) && client == c
    {
      mutex, client := HeldBy(threads.Length), c;
    }

    /** `mtx_unlock` by the client. */
    method Give(c: Client)
      modifies this`mutex, this`client
      ensures mutex == Free && client == c
    {
      mutex, client := Free, c;
    }

    method Step(e: Event)
      requires Valid() && Enabled(Snapshot(), e)
      modifies this, threads
      ensures Valid() && Snapshot() == Next(old(Snapshot()), e)
    {
      StepKeepsOrder(Snapshot(), e);
      match e
      case WorkerStep(t) => WorkerRuns(t);
      case ClientStep => ClientRuns();
      case CallStart => client := StartLock;
      case CallSync => client := SyncLock(false);
      case CallReset => client := SyncLock(true);
      case CallStop => client := StopLock;
      case Submit(count) => var last := DoSubmit(count);
    }

    /** Runs any schedule; claiming stays exactly-once if the schedule is polite. */
    method RunSchedule(es: seq<Event>)
      requires Valid() && Legal(Snapshot(), es)
      modifies this, threads
      ensures Valid() && Snapshot() == Exec(old(Snapshot()), es)
      ensures old(Claimed(Snapshot()) && PoliteRun(Snapshot(), es)) ==> Claimed(Snapshot())
    {
      ghost var s0 := Snapshot();
      var i := 0;
      while i < |es|
        invariant i <= |es| && Valid() && Legal(Snapshot(), es[i..])
        invariant Exec(Snapshot(), es[i..]) == Exec(s0, es)
      {
        assert es[i..][1..] == es[i + 1..];
        Step(es[i]);
        i := i + 1;
      }
      if Claimed(s0) && PoliteRun(s0, es) {
        RunKeepsClaimed(s0, es);
      }
    }
  }
}
