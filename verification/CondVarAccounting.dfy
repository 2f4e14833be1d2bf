/**
 The accounting of the condition variable: how many registered waiters, tokens and counters there
 are in every reachable state. It survives every step except one: a timed-out waiter that finds
 both `to_unblock` and `blocked` nonzero and executes line 233.
 */
module CondVarAccounting {
  import opened Basics
  import opened Tally
  import opened CondVarModel
  import opened CondVarGate

  /** The totals of a state over its threads, and the pending update of the monitor's holder. */
  datatype Ledger = Ledger(
    waiters: nat, owed: nat, drain: nat, closers: nat, drainers: nat,
    folders: nat, strays: nat, pendingBlocked: int, pendingGone: int)

  function LedgerOf(s: State): Ledger {
    Ledger(Waiters(s), Sum(s.th, Owed), DrainLeft(s), Closers(s), Drainers(s),
           Sum(s.th, Folding), Sum(s.th, Strayed),
           PendingBlocked(Owner(s)), PendingGone(Owner(s)))
  }

  /** The equations of the accounting, over shared fields and totals. */
  ghost predicate Equations(s: Shared, l: Ledger) {
    var blocked, gone := s.blocked + l.pendingBlocked, s.gone + l.pendingGone;
    var tokens := s.queue + l.owed;
    && blocked >= 0 && gone >= 0 && s.gone <= FOLD_AT
    && if s.toUnblock != 0 || l.closers > 0 then
         && l.waiters == blocked + s.toUnblock
         && tokens == s.toUnblock + gone + l.drain
         && (gone > 0 ==> blocked == 0)
         && (l.drainers > 0 ==> blocked == 0 && gone == 0)
         && l.waiters + gone + l.drain <= FOLD_AT
       else
         && l.waiters == blocked - gone
         && tokens == 0
         && (gone < FOLD_AT || (gone == FOLD_AT && l.folders > 0))
  }

  /** The equations hold and no thread is on its way from line 233 to line 238. */
  ghost predicate Balanced(s: Shared, l: Ledger) {
    Equations(s, l) && l.strays == 0
  }

  /** Accounting of a state in which at most INT_MAX/2 registered waiters are yet to be accounted for. */
  ghost predicate Accounted(s: State) {
    Waiters(s) <= FOLD_AT && Balanced(s.sh, LedgerOf(s))
  }

  /** The step that no accounting survives: line 233. */
  predicate Breaks(s: State, e: Event) {
    e.t < |s.th| && s.th[e.t].LateTakeBlocked?
  }

  // ----- one step, said with totals instead of threads

  /** What the gate invariant says about the totals from the viewpoint of one thread. */
  ghost predicate Seen(s: Shared, l: Ledger, t: nat, p: Pc) {
    && Waiting(p) <= l.waiters && Owed(p) <= l.owed && ToDrain(p) <= l.drain
    && Closing(p) <= l.closers && Draining(p) <= l.drainers <= l.closers
    && (GateHeld(p) == 1 || s.toUnblock != 0 ==>
          l.closers == Closing(p) && l.drainers == Draining(p) && l.drain == ToDrain(p))
    && Folding(p) <= l.folders && Strayed(p) <= l.strays
    && (s.gate > 0 ==> l.closers == 0 && l.drain == 0)
    && (s.monitor == HeldBy(t) && Closing(p) == 0 ==> l.closers == l.drainers)
    && (s.monitor == HeldBy(t) ==> l.pendingBlocked == PendingBlocked(p) && l.pendingGone == PendingGone(p))
    && (s.monitor == HeldBy(t) ==> l.folders == Folding(p))
    && (s.monitor == Free ==> l.pendingBlocked == 0 && l.pendingGone == 0)
  }

  /** `l'` is `l` after one thread moved from `p` to `p'`. */
  ghost predicate Shifted(l: Ledger, p: Pc, l': Ledger, p': Pc) {
    && l'.waiters + Waiting(p) == l.waiters + Waiting(p')
    && l'.owed + Owed(p) == l.owed + Owed(p')
    && l'.drain + ToDrain(p) == l.drain + ToDrain(p')
    && l'.closers + Closing(p) == l.closers + Closing(p')
    && l'.drainers + Draining(p) == l.drainers + Draining(p')
    && l'.folders + Folding(p) == l.folders + Folding(p')
    && l'.strays + Strayed(p) == l.strays + Strayed(p')
    && l'.pendingBlocked == l.pendingBlocked - PendingBlocked(p) + PendingBlocked(p')
    && l'.pendingGone == l.pendingGone - PendingGone(p) + PendingGone(p')
  }

  lemma CallBalance(s: Shared, t: nat, p: Pc, c: Choice, a: After, l: Ledger, l': Ledger)
    requires p.Idle? && CanAct(s, p, c) && LocalPre(s, t, p)
    requires l.waiters <= FOLD_AT && Balanced(s, l) && Seen(s, l, t, p)
    requires a == Act(s, t, p, c) && Shifted(l, p, l', a.p)
    ensures Balanced(a.sh, l')
  {
  }

  lemma SignalEndsBalance(s: Shared, t: nat, p: Pc, a: After, l: Ledger, l': Ledger)
    requires InSignalEnds(p) && CanAct(s, p, Go) && LocalPre(s, t, p)
    requires l.waiters <= FOLD_AT && Balanced(s, l) && Seen(s, l, t, p)
    requires a == SignalEndsStep(s, t, p) && Shifted(l, p, l', a.p)
    ensures Balanced(a.sh, l')
  {
  }

  lemma NotifyBalance(s: Shared, t: nat, p: Pc, a: After, l: Ledger, l': Ledger)
    requires InNotify(p) && CanAct(s, p, Go) && LocalPre(s, t, p)
    requires l.waiters <= FOLD_AT && Balanced(s, l) && Seen(s, l, t, p)
    requires a == NotifyStep(s, t, p) && Shifted(l, p, l', a.p)
    ensures Balanced(a.sh, l')
  {
  }

  lemma GatherBalance(s: Shared, t: nat, p: Pc, a: After, l: Ledger, l': Ledger)
    requires InOpen(p) && !p.SigOpen? && !p.SigOpenClear? && !p.SigOpenTake? && CanAct(s, p, Go) && LocalPre(s, t, p)
    requires l.waiters <= FOLD_AT && Balanced(s, l) && Seen(s, l, t, p)
    requires a == OpenStep(s, t, p) && Shifted(l, p, l', a.p)
    ensures Balanced(a.sh, l')
  {
  }

  lemma GrantBalance(s: Shared, t: nat, p: Pc, a: After, l: Ledger, l': Ledger)
    requires (p.SigOpen? || p.SigOpenClear? || p.SigOpenTake?) && CanAct(s, p, Go) && LocalPre(s, t, p)
    requires l.waiters <= FOLD_AT && Balanced(s, l) && Seen(s, l, t, p)
    requires a == OpenStep(s, t, p) && Shifted(l, p, l', a.p)
    ensures Balanced(a.sh, l')
  {
  }

  lemma OpenBalance(s: Shared, t: nat, p: Pc, a: After, l: Ledger, l': Ledger)
    requires InOpen(p) && CanAct(s, p, Go) && LocalPre(s, t, p)
    requires l.waiters <= FOLD_AT && Balanced(s, l) && Seen(s, l, t, p)
    requires a == OpenStep(s, t, p) && Shifted(l, p, l', a.p)
    ensures Balanced(a.sh, l')
  {
    if !(p.SigOpen? || p.SigOpenClear? || p.SigOpenTake?) {
      GatherBalance(s, t, p, a, l, l');
    } else {
      GrantBalance(s, t, p, a, l, l');
    }
  }

  lemma ArriveBalance(s: Shared, t: nat, p: Pc, c: Choice, a: After, l: Ledger, l': Ledger)
    requires InArrival(p) && CanAct(s, p, c) && LocalPre(s, t, p)
    requires l.waiters <= FOLD_AT && Balanced(s, l) && Seen(s, l, t, p)
    requires a == ArriveStep(s, p, c) && Shifted(l, p, l', a.p)
    ensures Balanced(a.sh, l')
  {
  }

  lemma WaitCountBalance(s: Shared, t: nat, p: Pc, a: After, l: Ledger, l': Ledger)
    requires p.WaitCount? && CanAct(s, p, Go) && LocalPre(s, t, p)
    requires l.waiters <= FOLD_AT && Balanced(s, l) && Seen(s, l, t, p)
    requires a == CountStep(s, t, p) && Shifted(l, p, l', a.p)
    ensures Balanced(a.sh, l')
  {
  }

  lemma EnterBalance(s: Shared, t: nat, p: Pc, a: After, l: Ledger, l': Ledger)
    requires (p.WaitEnter? || p.WaitTest?) && CanAct(s, p, Go) && LocalPre(s, t, p)
    requires l.waiters <= FOLD_AT && Balanced(s, l) && Seen(s, l, t, p)
    requires a == CountStep(s, t, p) && Shifted(l, p, l', a.p)
    ensures Balanced(a.sh, l')
  {
  }

  lemma GiveBalance(s: Shared, t: nat, p: Pc, a: After, l: Ledger, l': Ledger)
    requires (p.LateTest? || p.LateTakeBlocked? || p.LateAddGone?) && CanAct(s, p, Go) && LocalPre(s, t, p)
    requires l.waiters <= FOLD_AT && Balanced(s, l) && Seen(s, l, t, p)
    requires a == CountStep(s, t, p) && Shifted(l, p, l', a.p)
    ensures !p.LateTakeBlocked? ==> Balanced(a.sh, l')
    ensures p.LateTakeBlocked? ==> !Equations(a.sh, l')
  {
  }

  lemma LateBalance(s: Shared, t: nat, p: Pc, a: After, l: Ledger, l': Ledger)
    requires InCount(p) && !p.WaitCount? && CanAct(s, p, Go) && LocalPre(s, t, p)
    requires l.waiters <= FOLD_AT && Balanced(s, l) && Seen(s, l, t, p)
    requires a == CountStep(s, t, p) && Shifted(l, p, l', a.p)
    ensures !p.LateTakeBlocked? ==> Balanced(a.sh, l')
    ensures p.LateTakeBlocked? ==> !Equations(a.sh, l')
  {
    if p.WaitEnter? || p.WaitTest? {
      EnterBalance(s, t, p, a, l, l');
    } else {
      GiveBalance(s, t, p, a, l, l');
    }
  }

  lemma CountBalance(s: Shared, t: nat, p: Pc, a: After, l: Ledger, l': Ledger)
    requires InCount(p) && CanAct(s, p, Go) && LocalPre(s, t, p)
    requires l.waiters <= FOLD_AT && Balanced(s, l) && Seen(s, l, t, p)
    requires a == CountStep(s, t, p) && Shifted(l, p, l', a.p)
    ensures !p.LateTakeBlocked? ==> Balanced(a.sh, l')
    ensures p.LateTakeBlocked? ==> !Equations(a.sh, l')
  {
    if p.WaitCount? {
      WaitCountBalance(s, t, p, a, l, l');
    } else {
      LateBalance(s, t, p, a, l, l');
    }
  }

  lemma FoldBalance(s: Shared, t: nat, p: Pc, a: After, l: Ledger, l': Ledger)
    requires InFold(p) && CanAct(s, p, Go) && LocalPre(s, t, p)
    requires l.waiters <= FOLD_AT && Balanced(s, l) && Seen(s, l, t, p)
    requires a == FoldStep(s, t, p) && Shifted(l, p, l', a.p)
    ensures Balanced(a.sh, l')
  {
  }

  lemma LastBalance(s: Shared, t: nat, p: Pc, a: After, l: Ledger, l': Ledger)
    requires (p.LastTest? || p.LastReopen? || p.LastGone?) && CanAct(s, p, Go) && LocalPre(s, t, p)
    requires l.waiters <= FOLD_AT && Balanced(s, l) && Seen(s, l, t, p)
    requires a == CloseStep(s, t, p) && Shifted(l, p, l', a.p)
    ensures Balanced(a.sh, l')
  {
  }

  lemma LeaveBalance(s: Shared, t: nat, p: Pc, a: After, l: Ledger, l': Ledger)
    requires (p.WaitLeave? || p.Drain? || p.DrainReopen? || p.WaitRelock?) && CanAct(s, p, Go) && LocalPre(s, t, p)
    requires l.waiters <= FOLD_AT && Balanced(s, l) && Seen(s, l, t, p)
    requires a == CloseStep(s, t, p) && Shifted(l, p, l', a.p)
    ensures Balanced(a.sh, l')
  {
  }

  lemma CloseBalance(s: Shared, t: nat, p: Pc, a: After, l: Ledger, l': Ledger)
    requires InClose(p) && CanAct(s, p, Go) && LocalPre(s, t, p)
    requires l.waiters <= FOLD_AT && Balanced(s, l) && Seen(s, l, t, p)
    requires a == CloseStep(s, t, p) && Shifted(l, p, l', a.p)
    ensures Balanced(a.sh, l')
  {
    if p.LastTest? || p.LastReopen? || p.LastGone? {
      LastBalance(s, t, p, a, l, l');
    } else {
      LeaveBalance(s, t, p, a, l, l');
    }
  }

  // ----- from totals back to threads

  lemma GateHolderIsAlone(s: State, t: nat)
    requires GateInv(s) && t < |s.th|
    requires GateHeld(s.th[t]) == 1 || s.sh.toUnblock != 0
    ensures Closers(s) == Closing(s.th[t]) && Drainers(s) == Draining(s.th[t])
    ensures DrainLeft(s) == ToDrain(s.th[t])
  {
    forall u | 0 <= u < |s.th| && u != t
      ensures GateHeld(s.th[u]) == 0
    {
      GateAlone(s, t, u);
    }
    SumOnly(s.th, t, Closing);
    SumOnly(s.th, t, Draining);
    SumOnly(s.th, t, ToDrain);
  }

  lemma GateOpenMeansNoCloser(s: State)
    requires GateInv(s) && s.sh.gate > 0
    ensures Closers(s) == 0 && DrainLeft(s) == 0
  {
    forall u | 0 <= u < |s.th|
      ensures GateHeld(s.th[u]) == 0
    {
      SumAtLeast(s.th, u, GateHeld);
    }
    SumZero(s.th, Closing);
    SumZero(s.th, ToDrain);
  }

  lemma MonitorHolderIsAlone(s: State, t: nat)
    requires GateInv(s) && t < |s.th| && s.sh.monitor == HeldBy(t)
    ensures Sum(s.th, Folding) == Folding(s.th[t])
    ensures Closing(s.th[t]) == 0 ==> Closers(s) == Drainers(s)
  {
    SumOnly(s.th, t, Folding);
    if Closing(s.th[t]) == 0 {
      SumMonotone(s.th, Closing, Draining);
      SumMonotone(s.th, Draining, Closing);
    }
  }

  lemma LedgerSeen(s: State, t: nat)
    requires GateInv(s) && t < |s.th|
    ensures Seen(s.sh, LedgerOf(s), t, s.th[t])
  {
    SumAtLeast(s.th, t, Waiting);
    SumAtLeast(s.th, t, Owed);
    SumAtLeast(s.th, t, ToDrain);
    SumAtLeast(s.th, t, Closing);
    SumAtLeast(s.th, t, Draining);
    SumAtLeast(s.th, t, Folding);
    SumAtLeast(s.th, t, Strayed);
    SumMonotone(s.th, Draining, Closing);
    if GateHeld(s.th[t]) == 1 || s.sh.toUnblock != 0 {
      GateHolderIsAlone(s, t);
    }
    if s.sh.gate > 0 {
      GateOpenMeansNoCloser(s);
    }
    if s.sh.monitor == HeldBy(t) {
      MonitorHolderIsAlone(s, t);
    }
  }

  /** Only the holder of the monitor has an update pending, so the pending update moves with it. */
  lemma PendingMoves(s: State, t: nat, s': State)
    requires GateInv(s) && GateInv(s') && t < |s.th| && |s'.th| == |s.th|
    requires s'.th == s.th[t := s'.th[t]]
    requires StepOk(s.sh, t, s.th[t], s'.sh, s'.th[t])
    ensures PendingBlocked(Owner(s')) ==
            PendingBlocked(Owner(s)) - PendingBlocked(s.th[t]) + PendingBlocked(s'.th[t])
    ensures PendingGone(Owner(s')) == PendingGone(Owner(s)) - PendingGone(s.th[t]) + PendingGone(s'.th[t])
  {
    assert !InMonitor(s.th[t]) ==> PendingBlocked(s.th[t]) == PendingGone(s.th[t]) == 0;
    assert !InMonitor(s'.th[t]) ==> PendingBlocked(s'.th[t]) == PendingGone(s'.th[t]) == 0;
  }

  lemma LedgerShifts(s: State, t: nat, s': State)
    requires GateInv(s) && GateInv(s') && t < |s.th| && |s'.th| == |s.th|
    requires s'.th == s.th[t := s'.th[t]]
    requires StepOk(s.sh, t, s.th[t], s'.sh, s'.th[t])
    ensures Shifted(LedgerOf(s), s.th[t], LedgerOf(s'), s'.th[t])
  {
    var p := s'.th[t];
    SumUpdate(s.th, t, p, Waiting);
    SumUpdate(s.th, t, p, Owed);
    SumUpdate(s.th, t, p, ToDrain);
    SumUpdate(s.th, t, p, Closing);
    SumUpdate(s.th, t, p, Draining);
    SumUpdate(s.th, t, p, Folding);
    SumUpdate(s.th, t, p, Strayed);
    PendingMoves(s, t, s');
  }

  lemma ActBalance(s: Shared, t: nat, p: Pc, c: Choice, a: After, l: Ledger, l': Ledger)
    requires CanAct(s, p, c) && LocalPre(s, t, p)
    requires l.waiters <= FOLD_AT && Balanced(s, l) && Seen(s, l, t, p)
    requires a == Act(s, t, p, c) && Shifted(l, p, l', a.p)
    ensures !p.LateTakeBlocked? ==> Balanced(a.sh, l')
    ensures p.LateTakeBlocked? ==> !Equations(a.sh, l')
  {
    if p.Idle? {
      CallBalance(s, t, p, c, a, l, l');
    } else if InSignalEnds(p) {
      SignalEndsBalance(s, t, p, a, l, l');
    } else if InNotify(p) {
      NotifyBalance(s, t, p, a, l, l');
    } else if InOpen(p) {
      OpenBalance(s, t, p, a, l, l');
    } else if InArrival(p) {
      ArriveBalance(s, t, p, c, a, l, l');
    } else if InCount(p) {
      CountBalance(s, t, p, a, l, l');
    } else if InFold(p) {
      FoldBalance(s, t, p, a, l, l');
    } else {
      CloseBalance(s, t, p, a, l, l');
    }
  }

  // ----- the accounting of single steps and of whole runs

  /** The accounting equations of a state, whether or not a thread is between 233 and 238. */
  ghost predicate EquationsHold(s: State) {
    Equations(s.sh, LedgerOf(s))
  }

  /** One step keeps the accounting exactly when it is not line 233. */
  lemma StepKeepsAccounting(s: State, e: Event)
    requires GateInv(s) && Accounted(s) && Enabled(s, e)
    ensures !Breaks(s, e) && Waiters(Next(s, e)) <= FOLD_AT ==> Accounted(Next(s, e))
    ensures Breaks(s, e) ==> !EquationsHold(Next(s, e))
  {
    var s' := Next(s, e);
    StepKeepsGate(s, e);
    LedgerSeen(s, e.t);
    LedgerShifts(s, e.t, s');
    KnowsLocally(s, e.t);
    ActBalance(s.sh, e.t, s.th[e.t], e.c, Act(s.sh, e.t, s.th[e.t], e.c),
               LedgerOf(s), LedgerOf(s'));
  }

  lemma InitAccounted(n: nat)
    ensures Accounted(Init(n))
  {
    var th := Init(n).th;
    SumZero(th, Waiting);
    SumZero(th, Owed);
    SumZero(th, ToDrain);
    SumZero(th, Closing);
    SumZero(th, Draining);
    SumZero(th, Folding);
    SumZero(th, Strayed);
  }

  /** No event of the schedule executes line 233. */
  ghost predicate NeverBreaks(s: State, es: seq<Event>)
    requires Legal(s, es)
    decreases |es|
  {
    es != [] ==> !Breaks(s, es[0]) && NeverBreaks(Next(s, es[0]), es[1..])
  }

  /** No state of the run has more than INT_MAX/2 waiters. */
  ghost predicate FewWaiters(s: State, es: seq<Event>)
    requires Legal(s, es)
    decreases |es|
  {
    Waiters(s) <= FOLD_AT && (es != [] ==> FewWaiters(Next(s, es[0]), es[1..]))
  }

  /** That is so if there are not more threads to begin with. */
  lemma {:induction false} FewThreadsFewWaiters(s: State, es: seq<Event>)
    requires |s.th| <= FOLD_AT && Legal(s, es)
    ensures FewWaiters(s, es)
    decreases |es|
  {
    SumBounded(s.th, Waiting, 1);
    if es != [] {
      FewThreadsFewWaiters(Next(s, es[0]), es[1..]);
    }
  }

  /** The accounting equations hold in every state of the run. */
  ghost predicate EquationsThroughout(s: State, es: seq<Event>)
    requires Legal(s, es)
    decreases |es|
  {
    EquationsHold(s) && (es != [] ==> EquationsThroughout(Next(s, es[0]), es[1..]))
  }

  lemma {:induction false} RunKeepsAccounting(s: State, es: seq<Event>)
    requires GateInv(s) && Accounted(s) && Legal(s, es) && NeverBreaks(s, es) && FewWaiters(s, es)
    ensures Accounted(Exec(s, es))
    decreases |es|
  {
    if es != [] {
      StepKeepsGate(s, es[0]);
      StepKeepsAccounting(s, es[0]);
      RunKeepsAccounting(Next(s, es[0]), es[1..]);
    }
  }

  /** The accounting holds throughout a run if and only if the run never executes line 233. */
  lemma {:induction false} AccountedExactlyWithout233(s: State, es: seq<Event>)
    requires GateInv(s) && Accounted(s) && Legal(s, es) && FewWaiters(s, es)
    ensures EquationsThroughout(s, es) <==> NeverBreaks(s, es)
    decreases |es|
  {
    if es != [] {
      StepKeepsGate(s, es[0]);
      StepKeepsAccounting(s, es[0]);
      if !Breaks(s, es[0]) {
        AccountedExactlyWithout233(Next(s, es[0]), es[1..]);
      }
    }
  }

  /** Every state reached from `cnd_init` without line 233 is accounted for. */
  lemma Reachable(n: nat, es: seq<Event>)
    requires Legal(Init(n), es) && NeverBreaks(Init(n), es) && FewWaiters(Init(n), es)
    ensures GateInv(Exec(Init(n), es)) && Accounted(Exec(Init(n), es))
  {
    InitGate(n);
    InitAccounted(n);
    RunKeepsGate(Init(n), es);
    RunKeepsAccounting(Init(n), es);
  }
}
