/**
 Three ways of using a condition variable that never reach line 233 on any run, so that the whole
 accounting applies: no timed wait, no single signal, or never more than one registered waiter.
 */
module CondVarDisciplines {
  import opened Tally
  import opened CondVarModel
  import opened CondVarGate
  import opened CondVarAccounting

  // ----- only untimed waits

  predicate Untimed(p: Pc) {
    (InArrival(p) ==> !p.timed) &&
    !p.LateTest? && !p.LateTakeBlocked? && !p.LateAddGone? &&
    (p.WaitEnter? || p.WaitTest? || p.WaitCount? ==> p.wake == Token)
  }

  predicate NoTimedWait(es: seq<Event>) {
    forall e :: e in es ==> !e.c.CallTimedWait?
  }

  lemma UntimedSignalStep(s: Shared, t: nat, p: Pc, c: Choice)
    requires p.Idle? || InSignalEnds(p) || InNotify(p) || InOpen(p)
    requires CanAct(s, p, c) && Untimed(p) && !c.CallTimedWait?
    ensures Untimed(Act(s, t, p, c).p)
  {
  }

  lemma UntimedWaitStep(s: Shared, t: nat, p: Pc, c: Choice)
    requires !(p.Idle? || InSignalEnds(p) || InNotify(p) || InOpen(p))
    requires CanAct(s, p, c) && Untimed(p)
    ensures Untimed(Act(s, t, p, c).p)
  {
  }

  lemma UntimedStep(s: Shared, t: nat, p: Pc, c: Choice)
    requires CanAct(s, p, c) && Untimed(p) && !c.CallTimedWait?
    ensures Untimed(Act(s, t, p, c).p)
  {
    if p.Idle? || InSignalEnds(p) || InNotify(p) || InOpen(p) {
      UntimedSignalStep(s, t, p, c);
    } else {
      UntimedWaitStep(s, t, p, c);
    }
  }

  lemma {:induction false} UntimedRun(s: State, es: seq<Event>)
    requires Legal(s, es) && NoTimedWait(es)
    requires forall t :: 0 <= t < |s.th| ==> Untimed(s.th[t])
    ensures NeverBreaks(s, es)
    decreases |es|
  {
    if es != [] {
      UntimedStep(s.sh, es[0].t, s.th[es[0].t], es[0].c);
      UntimedRun(Next(s, es[0]), es[1..]);
    }
  }

  /** Only untimed waits: line 233 is never executed. */
  lemma UntimedWaitsNeverBreak(n: nat, es: seq<Event>)
    requires Legal(Init(n), es) && NoTimedWait(es)
    ensures NeverBreaks(Init(n), es)
  {
    UntimedRun(Init(n), es);
  }

  // ----- only broadcasts

  predicate Broadcasting(p: Pc) {
    match p
    case SigEnter(b) => b
    case SigTest(b) => b
    case SigMore(b) => b
    case SigAddOne => false
    case SigTakeOne => false
    case SigCompare(b) => b
    case SigGate(b) => b
    case SigTestGone(b) => b
    case SigFold(b) => b
    case SigFoldClear(b, _) => b
    case SigOpen(b) => b
    case SigOpenTake => false
    case _ => true
  }

  predicate NoSingleSignal(es: seq<Event>) {
    forall e :: e in es ==> !e.c.CallSignal?
  }

  /** While an epoch runs every registered waiter has been counted into it. */
  ghost predicate EpochTakesAll(s: Shared, l: Ledger) {
    s.toUnblock != 0 || l.closers > 0 ==> s.blocked + l.pendingBlocked == 0
  }

  lemma BroadcasterStep(s: Shared, t: nat, p: Pc, c: Choice, a: After, l: Ledger, l': Ledger)
    requires InSignalEnds(p) || InNotify(p) || InOpen(p)
    requires CanAct(s, p, c) && LocalPre(s, t, p) && Seen(s, l, t, p)
    requires a == Act(s, t, p, c) && Shifted(l, p, l', a.p)
    requires Broadcasting(p) && EpochTakesAll(s, l)
    ensures !p.LateTakeBlocked? && EpochTakesAll(a.sh, l')
  {
  }

  lemma WaiterStep(s: Shared, t: nat, p: Pc, c: Choice, a: After, l: Ledger, l': Ledger)
    requires !(InSignalEnds(p) || InNotify(p) || InOpen(p))
    requires CanAct(s, p, c) && LocalPre(s, t, p) && Seen(s, l, t, p)
    requires a == Act(s, t, p, c) && Shifted(l, p, l', a.p)
    requires Broadcasting(p) && EpochTakesAll(s, l)
    ensures !p.LateTakeBlocked? && EpochTakesAll(a.sh, l')
  {
  }

  lemma BroadcastStep(s: Shared, t: nat, p: Pc, c: Choice, a: After, l: Ledger, l': Ledger)
    requires CanAct(s, p, c) && LocalPre(s, t, p) && Seen(s, l, t, p)
    requires a == Act(s, t, p, c) && Shifted(l, p, l', a.p)
    requires Broadcasting(p) && EpochTakesAll(s, l)
    ensures !p.LateTakeBlocked? && EpochTakesAll(a.sh, l')
  {
    if InSignalEnds(p) || InNotify(p) || InOpen(p) {
      BroadcasterStep(s, t, p, c, a, l, l');
    } else {
      WaiterStep(s, t, p, c, a, l, l');
    }
  }

  lemma BroadcastingStep(s: Shared, t: nat, p: Pc, c: Choice)
    requires CanAct(s, p, c) && Broadcasting(p) && !c.CallSignal?
    ensures Broadcasting(Act(s, t, p, c).p)
  {
  }

  lemma {:induction false} BroadcastRun(s: State, es: seq<Event>)
    requires GateInv(s) && Legal(s, es) && NoSingleSignal(es)
    requires EpochTakesAll(s.sh, LedgerOf(s))
    requires forall t :: 0 <= t < |s.th| ==> Broadcasting(s.th[t])
    ensures NeverBreaks(s, es)
    decreases |es|
  {
    if es != [] {
      var e, s' := es[0], Next(s, es[0]);
      StepKeepsGate(s, e);
      LedgerSeen(s, e.t);
      LedgerShifts(s, e.t, s');
      KnowsLocally(s, e.t);
      BroadcastStep(s.sh, e.t, s.th[e.t], e.c, Act(s.sh, e.t, s.th[e.t], e.c),
                    LedgerOf(s), LedgerOf(s'));
      BroadcastingStep(s.sh, e.t, s.th[e.t], e.c);
      BroadcastRun(s', es[1..]);
    }
  }

  /** Only broadcasts, as on mumule's `wake_worker`: line 233 is never executed. */
  lemma BroadcastsNeverBreak(n: nat, es: seq<Event>)
    requires Legal(Init(n), es) && NoSingleSignal(es)
    ensures NeverBreaks(Init(n), es)
  {
    InitGate(n);
    SumZero(Init(n).th, Closing);
    BroadcastRun(Init(n), es);
  }

  // ----- at most one registered waiter at a time

  /** No state of the run has two registered waiters that are not yet accounted for. */
  ghost predicate OneWaiterThroughout(s: State, es: seq<Event>)
    requires Legal(s, es)
    decreases |es|
  {
    Waiters(s) <= 1 && (es != [] ==> OneWaiterThroughout(Next(s, es[0]), es[1..]))
  }

  /** Line 233 needs a second registered waiter beside the one that timed out. */
  lemma BreakNeedsTwoWaiters(s: State, e: Event)
    requires GateInv(s) && Accounted(s) && Enabled(s, e) && Breaks(s, e)
    ensures Waiters(s) >= 2
  {
    LedgerSeen(s, e.t);
    assert LocalOk(s.sh, s.th[e.t]);
  }

  lemma {:induction false} OneWaiterRun(s: State, es: seq<Event>)
    requires GateInv(s) && Accounted(s) && Legal(s, es) && OneWaiterThroughout(s, es)
    ensures NeverBreaks(s, es)
    decreases |es|
  {
    if es != [] {
      if Breaks(s, es[0]) {
        BreakNeedsTwoWaiters(s, es[0]);
      }
      StepKeepsGate(s, es[0]);
      StepKeepsAccounting(s, es[0]);
      OneWaiterRun(Next(s, es[0]), es[1..]);
    }
  }

  /** At most one waiter at a time: line 233 is never executed. */
  lemma OneWaiterNeverBreaks(n: nat, es: seq<Event>)
    requires Legal(Init(n), es) && OneWaiterThroughout(Init(n), es)
    ensures NeverBreaks(Init(n), es)
  {
    InitGate(n);
    InitAccounted(n);
    OneWaiterRun(Init(n), es);
  }

  // ----- only one thread ever waits

  predicate OnlyWaits(d: nat, es: seq<Event>) {
    forall e :: e in es && (e.c.CallWait? || e.c.CallTimedWait?) ==> e.t == d
  }

  predicate NotInWait(p: Pc) {
    p.Idle? || InSignalEnds(p) || InNotify(p) || InOpen(p)
  }

  lemma {:induction false} OnlyWaiterRun(s: State, es: seq<Event>, d: nat)
    requires Legal(s, es) && OnlyWaits(d, es)
    requires forall t :: 0 <= t < |s.th| && t != d ==> NotInWait(s.th[t])
    ensures OneWaiterThroughout(s, es)
    decreases |es|
  {
    if d < |s.th| {
      SumOnly(s.th, d, Waiting);
    } else {
      SumZero(s.th, Waiting);
    }
    if es != [] {
      var e := es[0];
      assert e in es;
      assert forall x :: x in es[1..] ==> x in es;
      OnlyWaiterRun(Next(s, e), es[1..], d);
    }
  }

  /** One dedicated waiting thread, as on mumule's `wake_dispatcher`: line 233 is never executed. */
  lemma DedicatedWaiterNeverBreaks(n: nat, es: seq<Event>, d: nat)
    requires Legal(Init(n), es) && OnlyWaits(d, es)
    ensures NeverBreaks(Init(n), es)
  {
    OnlyWaiterRun(Init(n), es, d);
    OneWaiterNeverBreaks(n, es);
  }
}
