/**
 `cnd_t` as an object: its fields change in place, one line of `impl_cond_do_signal` or
 `impl_cond_do_wait` at a time, on behalf of whichever thread the scheduler picks. Each method is
 proved against the step machine of CondVarModel, and conserves the gate: a thread or an epoch that
 gives it up has held it.
 */
module CondVarObject {
  import opened Basics
  import opened CondVarModel
  import opened CondVarGate
  import opened CondVarAccounting
  import opened CondVarWakeups

  class CondVar {
    var blocked: int
    var gone: int
    var toUnblock: int
    var queue: nat
    var gate: nat
    var monitor: Lock
    var threads: seq<Pc>
    ghost var begun: nat
    ghost var endedInside: nat
    ghost var endedOutside: nat

    ghost function Fields(): Shared
      reads this
    {
      Shared(blocked, gone, toUnblock, queue, gate, monitor, begun, endedInside, endedOutside)
    }

    ghost function Snapshot(): State
      reads this
    {
      State(Fields(), threads)
    }

    /** The gate is open, or held by exactly one thread or by the running epoch. */
    ghost predicate Valid()
      reads this
    {
      GateInv(Snapshot())
    }

    /** `cnd_init` (354-368). */
    constructor (n: nat)
      ensures Snapshot() == Init(n) && Valid()
      ensures Accounted(Snapshot())
    {
      blocked, gone, toUnblock := 0, 0, 0;
      queue, gate, monitor := 0, 1, Free;
      threads := seq(n, _ => Idle);
      begun, endedInside, endedOutside := 0, 0, 0;
      new;
      assert Snapshot() == Init(n);
      InitGate(n);
      InitAccounted(n);
    }

    /** Entering and leaving `impl_cond_do_signal`, and posting (179-180, 207-210). */
    method SignalEnds(t: nat, p: Pc) returns (p': Pc)
      requires InSignalEnds(p) && CanAct(Fields(), p, Go) && LocalPre(Fields(), t, p)
      modifies this
      ensures After(Fields(), p') == SignalEndsStep(old(Fields()), t, p) && threads == old(threads)
      ensures gate + Bit(toUnblock != 0) + GateHeld(p') == old(gate) + Bit(old(toUnblock) != 0) + GateHeld(p)
    {
      match p
      case SigEnter(b) =>
        monitor := HeldBy(t);
        p' := SigTest(b);
      case SigTest(b) =>
        p' := if toUnblock != 0 then SigMore(b) else SigCompare(b);
      case SigLeave(_, n) =>
        monitor := Free;
        p' := if 0 < n then SigPost(n) else Idle;
      case SigPost(n) =>
        if 0 < n && queue + n <= LONG_MAX {
          queue := queue + n;
        }
        p' := Idle;
    }

    /** Adding to a running epoch (181-191). */
    method Notify(t: nat, p: Pc) returns (p': Pc)
      requires InNotify(p) && CanAct(Fields(), p, Go) && LocalPre(Fields(), t, p)
      modifies this
      ensures After(Fields(), p') == NotifyStep(old(Fields()), t, p) && threads == old(threads)
      ensures gate + Bit(toUnblock != 0) + GateHeld(p') == old(gate) + Bit(old(toUnblock) != 0) + GateHeld(p)
    {
      match p
      case SigMore(b) =>
        p' := if blocked == 0 then SigLeave(b, 0) else if b then SigAddAll else SigAddOne;
      case SigAddAll =>
        toUnblock := toUnblock + blocked;
        p' := SigClear(blocked);
      case SigClear(n) =>
        blocked := 0;
        p' := SigLeave(true, n);
      case SigAddOne =>
        toUnblock := toUnblock + 1;
        p' := SigTakeOne;
      case SigTakeOne =>
        blocked := blocked - 1;
        p' := SigLeave(false, 1);
    }

    /** Opening an epoch (193-205). */
    method Open(t: nat, p: Pc) returns (p': Pc)
      requires InOpen(p) && CanAct(Fields(), p, Go) && LocalPre(Fields(), t, p)
      modifies this
      ensures After(Fields(), p') == OpenStep(old(Fields()), t, p) && threads == old(threads)
      ensures gate + Bit(toUnblock != 0) + GateHeld(p') == old(gate) + Bit(old(toUnblock) != 0) + GateHeld(p)
    {
      match p
      case SigCompare(b) =>
        p' := if blocked > gone then SigGate(b) else SigLeave(b, 0);
      case SigGate(b) =>
        gate, begun := gate - 1, begun + 1;
        p' := SigTestGone(b);
      case SigTestGone(b) =>
        p' := if gone != 0 then SigFold(b) else SigOpen(b);
      case SigFold(b) =>
        blocked := blocked - gone;
        p' := SigFoldClear(b, gone);
      case SigFoldClear(b, _) =>
        gone := 0;
        p' := SigOpen(b);
      case SigOpen(b) =>
        toUnblock := if b then blocked else 1;
        p' := if b then SigOpenClear(blocked) else SigOpenTake;
      case SigOpenClear(n) =>
        blocked := 0;
        p' := SigLeave(true, n);
      case SigOpenTake =>
        blocked := blocked - 1;
        p' := SigLeave(false, 1);
    }

    /** Registering and waiting for a token (220-227). */
    method Arrive(t: nat, p: Pc, c: Choice) returns (p': Pc)
      requires InArrival(p) && CanAct(Fields(), p, c) && LocalPre(Fields(), t, p)
      modifies this
      ensures After(Fields(), p') == ArriveStep(old(Fields()), p, c) && threads == old(threads)
      ensures gate + Bit(toUnblock != 0) + GateHeld(p') == old(gate) + Bit(old(toUnblock) != 0) + GateHeld(p)
    {
      match p
      case WaitGate(timed) =>
        gate := gate - 1;
        p' := WaitLoad(timed);
      case WaitLoad(timed) =>
        p' := WaitStore(timed, blocked);
      case WaitStore(timed, x) =>
        blocked := x + 1;
        p' := WaitUngate(timed);
      case WaitUngate(timed) =>
        Release();
        p' := WaitUnlock(timed);
      case WaitUnlock(timed) =>
        p' := WaitToken(timed);
      case WaitToken(_) =>
        if c == TimeOut {
          p' := WaitEnter(TimedOut);
        } else {
          queue := queue - 1;
          p' := WaitEnter(Token);
        }
    }

    /** `ReleaseSemaphore(sem_gate, 1)` on a semaphore that no other thread has released: it succeeds. */
    method Release()
      requires gate == 0
      modifies this`gate
      ensures gate == 1
    {
      gate := gate + 1;
    }

    /** A woken waiter accounts for itself inside an epoch (229-238). */
    method Count(t: nat, p: Pc) returns (p': Pc)
      requires InCount(p) && CanAct(Fields(), p, Go) && LocalPre(Fields(), t, p)
      modifies this
      ensures After(Fields(), p') == CountStep(old(Fields()), t, p) && threads == old(threads)
      ensures gate + Bit(toUnblock != 0) + GateHeld(p') == old(gate) + Bit(old(toUnblock) != 0) + GateHeld(p)
    {
      match p
      case WaitEnter(k) =>
        monitor := HeldBy(t);
        p' := WaitTest(k);
      case WaitTest(k) =>
        p' := if toUnblock == 0 then IdleCount(k)
              else if k == TimedOut then LateTest(toUnblock)
              else WaitCount(k, toUnblock, false);
      case LateTest(nleft) =>
        p' := if blocked != 0 then LateTakeBlocked(nleft) else LateAddGone(nleft);
      case LateTakeBlocked(nleft) =>
        blocked := blocked - 1;
        p' := WaitCount(TimedOut, nleft, false);
      case LateAddGone(nleft) =>
        gone := gone + 1;
        p' := WaitCount(TimedOut, nleft, true);
      case WaitCount(k, nleft, _) =>
        toUnblock := toUnblock - 1;
        p' := if toUnblock == 0 then LastTest(k, nleft) else WaitLeave(k, nleft, 0);
    }

    /** A timed-out waiter gives its registration up outside an epoch (247-251). */
    method Fold(t: nat, p: Pc) returns (p': Pc)
      requires InFold(p) && CanAct(Fields(), p, Go) && LocalPre(Fields(), t, p)
      modifies this
      ensures After(Fields(), p') == FoldStep(old(Fields()), t, p) && threads == old(threads)
      ensures gate + Bit(toUnblock != 0) + GateHeld(p') == old(gate) + Bit(old(toUnblock) != 0) + GateHeld(p)
    {
      match p
      case IdleCount(k) =>
        gone := gone + 1;
        p' := if gone == FOLD_AT then FoldGate(k) else WaitLeave(k, 0, 0);
      case FoldGate(k) =>
        gate := gate - 1;
        p' := FoldSub(k);
      case FoldSub(k) =>
        blocked := blocked - gone;
        p' := FoldUngate(k, gone);
      case FoldUngate(k, g) =>
        Release();
        p' := FoldClear(k, g);
      case FoldClear(k, _) =>
        gone := 0;
        p' := WaitLeave(k, 0, 0);
    }

    /** Ending an epoch, draining, and leaving `impl_cond_do_wait` (239-244, 253-262). */
    method Close(t: nat, p: Pc) returns (p': Pc)
      requires InClose(p) && CanAct(Fields(), p, Go) && LocalPre(Fields(), t, p)
      modifies this
      ensures After(Fields(), p') == CloseStep(old(Fields()), t, p) && threads == old(threads)
      ensures gate + Bit(toUnblock != 0) + GateHeld(p') == old(gate) + Bit(old(toUnblock) != 0) + GateHeld(p)
    {
      match p
      case LastTest(k, nleft) =>
        p' := if blocked != 0 then LastReopen(k) else LastGone(k, nleft);
      case LastReopen(k) =>
        Release();
        endedInside := endedInside + 1;
        p' := WaitLeave(k, 0, 0);
      case LastGone(k, nleft) =>
        p' := WaitLeave(k, nleft, gone);
        gone := 0;
      case WaitLeave(k, nleft, ngone) =>
        monitor := Free;
        p' := if nleft == 1 then Drain(k, ngone) else WaitRelock(k);
      case Drain(k, ngone) =>
        if ngone != 0 {
          queue := queue - 1;
          p' := Drain(k, ngone - 1);
        } else {
          p' := DrainReopen(k);
        }
      case DrainReopen(k) =>
        Release();
        endedOutside := endedOutside + 1;
        p' := WaitRelock(k);
      case WaitRelock(_) =>
        p' := Idle;
    }

    /**
     One line of thread `e.t`. Unless it is line 233, the accounting survives, and waiters and tokens
     move as the abstract condition variable allows.
     */
    method Step(e: Event)
      requires Valid() && Enabled(Snapshot(), e)
      modifies this
      ensures Valid() && Snapshot() == Next(old(Snapshot()), e)
      ensures old(Accounted(Snapshot()) && !Breaks(Snapshot(), e)) ==>
                && (Waiters(Snapshot()) <= FOLD_AT ==> Accounted(Snapshot()))
                && View(Snapshot()) == Effect(old(View(Snapshot())), old(ActionOf(Fields(), threads[e.t])))
    {
      ghost var s := Snapshot();
      Line(e);
      StepKeepsGate(s, e);
      if Accounted(s) && !Breaks(s, e) {
        StepKeepsAccounting(s, e);
        StepRefines(s, e);
      }
    }

    /** The line at which thread `e.t` stands. */
    method Line(e: Event)
      requires Valid() && Enabled(Snapshot(), e)
      modifies this
      ensures Snapshot() == Next(old(Snapshot()), e)
    {
      var p := threads[e.t];
      var p' := Call(e.c);
      KnowsLocally(Snapshot(), e.t);
      if InSignalEnds(p) || InNotify(p) || InOpen(p) {
        p' := SignalLine(e.t, p);
      } else if InArrival(p) || InCount(p) {
        p' := WaitLine(e.t, p, e.c);
      } else if !p.Idle? {
        p' := LeaveLine(e.t, p);
      }
      threads := threads[e.t := p'];
    }

    /** A line of `impl_cond_do_signal` (175-211). */
    method SignalLine(t: nat, p: Pc) returns (p': Pc)
      requires InSignalEnds(p) || InNotify(p) || InOpen(p)
      requires CanAct(Fields(), p, Go) && LocalPre(Fields(), t, p)
      modifies this
      ensures After(Fields(), p') == Act(old(Fields()), t, p, Go) && threads == old(threads)
    {
      if InSignalEnds(p) {
        p' := SignalEnds(t, p);
      } else if InNotify(p) {
        p' := Notify(t, p);
      } else {
        p' := Open(t, p);
      }
    }

    /** A line of `impl_cond_do_wait` up to 238. */
    method WaitLine(t: nat, p: Pc, c: Choice) returns (p': Pc)
      requires InArrival(p) || InCount(p)
      requires CanAct(Fields(), p, c) && LocalPre(Fields(), t, p)
      modifies this
      ensures After(Fields(), p') == Act(old(Fields()), t, p, c) && threads == old(threads)
    {
      if InArrival(p) {
        p' := Arrive(t, p, c);
      } else {
        p' := Count(t, p);
      }
    }

    /** A line of `impl_cond_do_wait` from 239 on. */
    method LeaveLine(t: nat, p: Pc) returns (p': Pc)
      requires InFold(p) || InClose(p)
      requires CanAct(Fields(), p, Go) && LocalPre(Fields(), t, p)
      modifies this
      ensures After(Fields(), p') == Act(old(Fields()), t, p, Go) && threads == old(threads)
    {
      if InFold(p) {
        p' := Fold(t, p);
      } else {
        p' := Close(t, p);
      }
    }

    /** Runs any schedule; the gate stays conserved, and the accounting holds unless line 233 is executed. */
    method Run(es: seq<Event>)
      requires Valid() && Legal(Snapshot(), es)
      modifies this
      ensures Valid() && Snapshot() == Exec(old(Snapshot()), es)
      ensures old(Accounted(Snapshot()) && NeverBreaks(Snapshot(), es) && FewWaiters(Snapshot(), es)) ==>
                Accounted(Snapshot())
    {
      ghost var s0 := Snapshot();
      var i := 0;
      while i < |es|
        invariant i <= |es| && Valid() && Legal(Snapshot(), es[i..])
        invariant Exec(Snapshot(), es[i..]) == Exec(s0, es)
      {
        assert es[i..][1..] == es[i + 1..];
        Step(es[i]);
        i := i + 1;
      }
      if Accounted(s0) && NeverBreaks(s0, es) && FewWaiters(s0, es) {
        RunKeepsAccounting(s0, es);
      }
    }
  }
}
