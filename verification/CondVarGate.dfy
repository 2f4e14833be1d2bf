/**
 What holds on every run of the condition variable, whatever times out: the gate has exactly one
 holder or is open, each epoch is ended once, and the plain fields are never written by two threads
 at the same time.
 */
module CondVarGate {
  import opened Basics
  import opened Tally
  import opened CondVarModel

  /** What thread state `p` knows about the shared fields. */
  ghost predicate LocalOk(s: Shared, p: Pc) {
    match p
    case SigMore(_) => s.toUnblock > 0
    case SigAddAll => s.toUnblock > 0 && s.blocked > 0
    case SigClear(n) => s.toUnblock > 0 && s.blocked == n > 0
    case SigAddOne => s.toUnblock > 0 && s.blocked > 0
    case SigTakeOne => s.toUnblock > 0 && s.blocked > 0
    case SigCompare(_) => s.toUnblock == 0
    case SigGate(_) => s.toUnblock == 0 && s.blocked > s.gone
    case SigTestGone(_) => s.toUnblock == 0 && s.blocked > s.gone
    case SigFold(_) => s.toUnblock == 0 && s.blocked > s.gone > 0
    case SigFoldClear(_, g) => s.toUnblock == 0 && s.blocked > 0 && s.gone == g
    case SigOpen(_) => s.toUnblock == 0 && s.blocked > 0 && s.gone == 0
    case SigOpenClear(n) => s.toUnblock == s.blocked == n > 0
    case SigOpenTake => s.toUnblock == 1 && s.blocked > 0
    case SigLeave(b, n) => n >= 0 && (n > 0 ==> s.toUnblock > 0 && (b ==> s.blocked == 0))
    case SigPost(n) => n > 0
    case WaitStore(_, x) => s.blocked == x
    case LateTest(nleft) => s.toUnblock == nleft > 0
    case LateTakeBlocked(nleft) => s.toUnblock == nleft > 0 && s.blocked > 0
    case LateAddGone(nleft) => s.toUnblock == nleft > 0 && s.blocked == 0
    case WaitCount(k, nleft, viaGone) =>
      s.toUnblock == nleft > 0 && (viaGone ==> k == TimedOut && s.gone > 0 && s.blocked == 0)
    case LastTest(_, nleft) => s.toUnblock == 0 && nleft == 1 && s.blocked >= 0
    case LastReopen(_) => s.toUnblock == 0 && s.blocked > 0
    case LastGone(_, nleft) => s.toUnblock == 0 && nleft == 1 && s.blocked == 0
    case IdleCount(_) => s.toUnblock == 0
    case FoldGate(_) => s.toUnblock == 0 && s.gone == FOLD_AT
    case FoldSub(_) => s.toUnblock == 0 && s.gone == FOLD_AT
    case FoldUngate(_, g) => s.toUnblock == 0 && s.gone == g == FOLD_AT
    case FoldClear(_, g) => s.toUnblock == 0 && s.gone == g == FOLD_AT
    case WaitLeave(_, nleft, n) => n >= 0 && (nleft != 1 ==> n == 0)
    case Drain(_, n) => n >= 0
    case _ => true
  }

  /** The thread holds the gate for an epoch it is opening or closing. */
  function EpochHeld(p: Pc): nat {
    if p.SigTestGone? || p.SigFold? || p.SigFoldClear? || p.SigOpen? then 1 else Closing(p)
  }

  function EpochHolders(s: State): nat { Sum(s.th, EpochHeld) }

  ghost predicate MonitorOk(s: State) {
    && (s.sh.monitor.HeldBy? ==> s.sh.monitor.id < |s.th|)
    && forall t :: 0 <= t < |s.th| ==> (InMonitor(s.th[t]) <==> s.sh.monitor == HeldBy(t))
  }

  ghost predicate LocalsOk(s: State) {
    forall t :: 0 <= t < |s.th| ==> LocalOk(s.sh, s.th[t])
  }

  /** The gate is open, or held by exactly one thread, or by the running epoch. */
  ghost predicate GateConserved(s: State) {
    s.sh.gate + Bit(s.sh.toUnblock != 0) + GateHolders(s) == 1
  }

  /** Every epoch begun has been ended, except the one that is running. */
  ghost predicate EpochsCounted(s: State) {
    s.sh.begun == s.sh.endedInside + s.sh.endedOutside + Bit(s.sh.toUnblock != 0) + EpochHolders(s)
  }

  ghost predicate Signs(s: Shared) {
    s.toUnblock >= 0 && s.gone >= 0 && (s.toUnblock > 0 ==> s.blocked >= 0)
  }

  ghost predicate GateInv(s: State) {
    MonitorOk(s) && LocalsOk(s) && Signs(s.sh) && GateConserved(s) && EpochsCounted(s)
  }

  lemma InitGate(n: nat)
    ensures GateInv(Init(n))
  {
    SumZero(Init(n).th, GateHeld);
    SumZero(Init(n).th, EpochHeld);
  }

  /** How the totals move when one thread moves. */
  lemma Moved(s: State, t: nat, p: Pc)
    requires t < |s.th|
    ensures Sum(s.th[t := p], GateHeld) + GateHeld(s.th[t]) == Sum(s.th, GateHeld) + GateHeld(p)
    ensures Sum(s.th[t := p], EpochHeld) + EpochHeld(s.th[t]) == Sum(s.th, EpochHeld) + EpochHeld(p)
    ensures GateHeld(s.th[t]) <= GateHolders(s)
  {
    SumUpdate(s.th, t, p, GateHeld);
    SumUpdate(s.th, t, p, EpochHeld);
    SumAtLeast(s.th, t, GateHeld);
  }

  /** While one thread holds the gate or an epoch runs, no other thread holds it. */
  lemma GateAlone(s: State, t: nat, u: nat)
    requires GateConserved(s) && t < |s.th| && u < |s.th| && t != u
    ensures GateHeld(s.th[t]) + GateHeld(s.th[u]) + Bit(s.sh.toUnblock != 0) <= 1
  {
    SumAtLeastPair(s.th, t, u, GateHeld);
  }

  /** What a step of thread `t` from `p` to `p'` may do to the shared fields. */
  ghost predicate StepOk(s: Shared, t: nat, p: Pc, s': Shared, p': Pc) {
    && LocalOk(s', p') && Signs(s')
    && (InMonitor(p') <==> s'.monitor == HeldBy(t))
    && (s'.monitor == s.monitor || (s.monitor == Free && s'.monitor == HeldBy(t)) ||
        (s.monitor == HeldBy(t) && s'.monitor == Free))
    && (s'.toUnblock != s.toUnblock || s'.gone != s.gone ==> s.monitor == HeldBy(t))
    && (s'.blocked != s.blocked ==>
        || (s.monitor == HeldBy(t) && (s.toUnblock > 0 || GateHeld(p) == 1))
        || (s'.blocked == s.blocked + 1 && GateHeld(p) == 1))
    && s'.gate + Bit(s'.toUnblock != 0) + GateHeld(p') == s.gate + Bit(s.toUnblock != 0) + GateHeld(p)
    && s'.begun + s.endedInside + s.endedOutside + Bit(s.toUnblock != 0) + EpochHeld(p)
       == s.begun + s'.endedInside + s'.endedOutside + Bit(s'.toUnblock != 0) + EpochHeld(p')
  }

  /** The part of the gate invariant that concerns one thread and the shared fields. */
  ghost predicate LocalPre(s: Shared, t: nat, p: Pc) {
    && LocalOk(s, p) && Signs(s)
    && (InMonitor(p) <==> s.monitor == HeldBy(t))
    && s.gate + Bit(s.toUnblock != 0) + GateHeld(p) <= 1
  }

  lemma SignalEndsStepOk(s: Shared, t: nat, p: Pc, a: After)
    requires InSignalEnds(p) && CanAct(s, p, Go) && LocalPre(s, t, p) && a == SignalEndsStep(s, t, p)
    ensures StepOk(s, t, p, a.sh, a.p)
  {
  }

  lemma NotifyStepOk(s: Shared, t: nat, p: Pc, a: After)
    requires InNotify(p) && CanAct(s, p, Go) && LocalPre(s, t, p) && a == NotifyStep(s, t, p)
    ensures StepOk(s, t, p, a.sh, a.p)
  {
  }

  lemma OpenStepOk(s: Shared, t: nat, p: Pc, a: After)
    requires InOpen(p) && CanAct(s, p, Go) && LocalPre(s, t, p) && a == OpenStep(s, t, p)
    ensures StepOk(s, t, p, a.sh, a.p)
  {
  }

  lemma ArriveStepOk(s: Shared, t: nat, p: Pc, c: Choice, a: After)
    requires InArrival(p) && CanAct(s, p, c) && LocalPre(s, t, p) && a == ArriveStep(s, p, c)
    ensures StepOk(s, t, p, a.sh, a.p)
  {
  }

  lemma CountStepOk(s: Shared, t: nat, p: Pc, a: After)
    requires InCount(p) && CanAct(s, p, Go) && LocalPre(s, t, p) && a == CountStep(s, t, p)
    ensures StepOk(s, t, p, a.sh, a.p)
  {
  }

  lemma FoldStepOk(s: Shared, t: nat, p: Pc, a: After)
    requires InFold(p) && CanAct(s, p, Go) && LocalPre(s, t, p) && a == FoldStep(s, t, p)
    ensures StepOk(s, t, p, a.sh, a.p)
  {
  }

  lemma LastStepOk(s: Shared, t: nat, p: Pc, a: After)
    requires (p.LastTest? || p.LastReopen? || p.LastGone?) && CanAct(s, p, Go) && LocalPre(s, t, p)
    requires a == CloseStep(s, t, p)
    ensures StepOk(s, t, p, a.sh, a.p)
  {
  }

  lemma LeaveStepOk(s: Shared, t: nat, p: Pc, a: After)
    requires (p.WaitLeave? || p.Drain? || p.DrainReopen? || p.WaitRelock?) && CanAct(s, p, Go) && LocalPre(s, t, p)
    requires a == CloseStep(s, t, p)
    ensures StepOk(s, t, p, a.sh, a.p)
  {
  }

  lemma CloseStepOk(s: Shared, t: nat, p: Pc, a: After)
    requires InClose(p) && CanAct(s, p, Go) && LocalPre(s, t, p) && a == CloseStep(s, t, p)
    ensures StepOk(s, t, p, a.sh, a.p)
  {
    if p.LastTest? || p.LastReopen? || p.LastGone? {
      LastStepOk(s, t, p, a);
    } else {
      LeaveStepOk(s, t, p, a);
    }
  }

  lemma ActOk(s: Shared, t: nat, p: Pc, c: Choice, a: After)
    requires CanAct(s, p, c) && LocalPre(s, t, p) && a == Act(s, t, p, c)
    ensures StepOk(s, t, p, a.sh, a.p)
  {
    if InSignalEnds(p) {
      SignalEndsStepOk(s, t, p, a);
    } else if InNotify(p) {
      NotifyStepOk(s, t, p, a);
    } else if InOpen(p) {
      OpenStepOk(s, t, p, a);
    } else if InArrival(p) {
      ArriveStepOk(s, t, p, c, a);
    } else if InCount(p) {
      CountStepOk(s, t, p, a);
    } else if InFold(p) {
      FoldStepOk(s, t, p, a);
    } else if InClose(p) {
      CloseStepOk(s, t, p, a);
    }
  }

  lemma KnowsLocally(s: State, t: nat)
    requires GateInv(s) && t < |s.th|
    ensures LocalPre(s.sh, t, s.th[t])
  {
    SumAtLeast(s.th, t, GateHeld);
  }

  /** Every step of every thread keeps the gate invariant. */
  lemma StepKeepsGate(s: State, e: Event)
    requires GateInv(s) && Enabled(s, e)
    ensures GateInv(Next(s, e))
    ensures StepOk(s.sh, e.t, s.th[e.t], Next(s, e).sh, Next(s, e).th[e.t])
  {
    KnowsLocally(s, e.t);
    ActOk(s.sh, e.t, s.th[e.t], e.c, Act(s.sh, e.t, s.th[e.t], e.c));
    StepOkKeepsGate(s, e.t, Next(s, e));
  }

  lemma OthersKeep(s: State, t: nat, s': State)
    requires GateInv(s) && t < |s.th| && |s'.th| == |s.th| && s'.th == s.th[t := s'.th[t]]
    requires StepOk(s.sh, t, s.th[t], s'.sh, s'.th[t])
    ensures LocalsOk(s')
  {
    forall u | 0 <= u < |s'.th|
      ensures LocalOk(s'.sh, s'.th[u])
    {
      if u != t {
        GateAlone(s, t, u);
        assert LocalOk(s.sh, s.th[u]);
        assert InMonitor(s.th[u]) ==> s.sh.monitor == HeldBy(u);
      }
    }
  }

  lemma StepOkKeepsGate(s: State, t: nat, s': State)
    requires GateInv(s) && t < |s.th| && |s'.th| == |s.th| && s'.th == s.th[t := s'.th[t]]
    requires StepOk(s.sh, t, s.th[t], s'.sh, s'.th[t])
    ensures GateInv(s')
  {
    OthersKeep(s, t, s');
    Moved(s, t, s'.th[t]);
  }

  /** The gate invariant holds on every run, whatever the schedule and whatever times out. */
  lemma {:induction false} RunKeepsGate(s: State, es: seq<Event>)
    requires GateInv(s) && Legal(s, es)
    ensures GateInv(Exec(s, es)) && |Exec(s, es).th| == |s.th|
    decreases |es|
  {
    if es != [] {
      StepKeepsGate(s, es[0]);
      RunKeepsGate(Next(s, es[0]), es[1..]);
    }
  }

  /** The points at which a thread releases the gate (222, 240, 250, 258). */
  predicate ReleasesGate(p: Pc) {
    p.WaitUngate? || p.LastReopen? || p.FoldUngate? || p.DrainReopen?
  }

  /** No release ever meets a full gate, so none of them fails, and the gate is then free. */
  lemma GateNeverOverfull(s: State, e: Event)
    requires GateInv(s) && Enabled(s, e) && ReleasesGate(s.th[e.t])
    ensures s.sh.gate == 0 && s.sh.toUnblock == 0 && Next(s, e).sh.gate == 1
    ensures forall u :: 0 <= u < |s.th| && u != e.t ==> GateHeld(s.th[u]) == 0
  {
    SumAtLeast(s.th, e.t, GateHeld);
    forall u | 0 <= u < |s.th| && u != e.t
      ensures GateHeld(s.th[u]) == 0
    {
      GateAlone(s, e.t, u);
    }
  }

  /**
   Each epoch is ended once: at most one is running, at most one thread is closing it, and that
   thread is the one whose decrement took `to_unblock` to 0.
   */
  lemma EpochEndedOnce(s: State, t: nat, u: nat)
    requires GateInv(s) && t < |s.th| && u < |s.th| && Closing(s.th[t]) == 1
    ensures s.sh.toUnblock == 0 && (Closing(s.th[u]) == 1 ==> u == t)
    ensures s.sh.begun == s.sh.endedInside + s.sh.endedOutside + 1
  {
    SumAtLeast(s.th, t, GateHeld);
    if u != t {
      GateAlone(s, t, u);
    }
    SumAtLeast(s.th, t, EpochHeld);
    SumMonotone(s.th, EpochHeld, GateHeld);
  }

  /** A thread starts closing only by the decrement to 0, and stops by exactly one of 240 and 258. */
  lemma EpochEndsAt240Or258(s: Shared, t: nat, p: Pc, c: Choice)
    requires CanAct(s, p, c) && LocalPre(s, t, p)
    ensures var a := Act(s, t, p, c);
      && (Closing(p) == 0 && Closing(a.p) == 1 ==> p.WaitCount? && s.toUnblock == 1 && a.sh.toUnblock == 0)
      && (Closing(p) == 1 && Closing(a.p) == 0 <==>
            a.sh.endedInside + a.sh.endedOutside == s.endedInside + s.endedOutside + 1)
      && (a.sh.endedInside != s.endedInside <==> p.LastReopen?)
      && (a.sh.endedOutside != s.endedOutside <==> p.DrainReopen?)
      && (Closing(p) == 1 && Closing(a.p) == 0 ==> s.gate == 0 && a.sh.gate == 1)
  {
  }

  /** The thread is inside a read-modify-write of `blocked`, or about to write it. */
  predicate WritesBlocked(p: Pc) {
    p.WaitLoad? || p.WaitStore? || p.SigClear? || p.SigTakeOne? || p.SigFold? ||
    p.SigOpenClear? || p.SigOpenTake? || p.LateTakeBlocked? || p.FoldSub?
  }

  /** Two threads are never both inside an update of `blocked`. */
  lemma BlockedHasOneWriter(s: State, t: nat, u: nat)
    requires GateInv(s) && t < |s.th| && u < |s.th| && t != u
    requires WritesBlocked(s.th[t])
    ensures !WritesBlocked(s.th[u])
  {
    GateAlone(s, t, u);
    assert LocalOk(s.sh, s.th[t]) && LocalOk(s.sh, s.th[u]);
  }

  /** Whoever changes `blocked` holds the gate, or the monitor inside an epoch; 221 loses no update. */
  lemma BlockedWrittenUnderGate(s: State, e: Event)
    requires GateInv(s) && Enabled(s, e)
    ensures Next(s, e).sh.blocked != s.sh.blocked ==>
              && WritesBlocked(s.th[e.t])
              && (GateHeld(s.th[e.t]) == 1 || (s.sh.monitor == HeldBy(e.t) && s.sh.toUnblock > 0))
    ensures s.th[e.t].WaitStore? ==> Next(s, e).sh.blocked == s.sh.blocked + 1
  {
    assert LocalOk(s.sh, s.th[e.t]);
  }

  /** Registrations are folded exactly when `gone` reaches INT_MAX/2, for an `int` of 32 bits (247). */
  lemma FoldsAtHalf(s: Shared, t: nat, p: Pc)
    requires p.IdleCount?
    ensures Act(s, t, p, Go).p.FoldGate? <==> s.gone + 1 == 0x3FFF_FFFF
    ensures Act(s, t, p, Go).sh == s.(gone := s.gone + 1)
  {
  }

  /** The semaphores accept a release as long as their maxima, 1 and LONG_MAX, are not exceeded (363-364). */
  lemma SemaphoreMaxima(s: Shared, t: nat, p: Pc)
    requires CanAct(s, p, Go)
    ensures ReleasesGate(p) && s.gate <= 1 ==> Act(s, t, p, Go).sh.gate == 1
    ensures p.SigPost? && p.nsignal > 0 ==>
              Act(s, t, p, Go).sh.queue ==
              if s.queue + p.nsignal <= 0x7FFF_FFFF then s.queue + p.nsignal else s.queue
  {
  }

  /** From the test at 193 until the signaller has the gate, `blocked` only grows and `gone` stays. */
  lemma TestAt193Stays(s: State, e: Event, t: nat)
    requires GateInv(s) && Enabled(s, e) && t < |s.th| && t != e.t
    requires s.th[t].SigGate?
    ensures Next(s, e).sh.blocked >= s.sh.blocked > s.sh.gone == Next(s, e).sh.gone
    ensures Next(s, e).sh.toUnblock == s.sh.toUnblock == 0
  {
    StepKeepsGate(s, e);
    assert LocalOk(s.sh, s.th[t]);
    assert InMonitor(s.th[t]);
  }
}
