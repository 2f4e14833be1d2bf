/**
 What line 233 does to the accounting, as a law of every run: each execution hides one registered
 waiter from the counters for good and leaves one token too many, which some waiter then takes
 outside any epoch. With no such step these are the equations of CondVarAccounting.
 */
module CondVarDrift {
  import opened Tally
  import opened CondVarModel
  import opened CondVarGate
  import opened CondVarAccounting

  /** From the first store to `to_unblock` until its last decrement has been dealt with (239-244). */
  predicate Granting(s: Shared, l: Ledger) { s.toUnblock != 0 || l.closers > l.drainers }

  /** `strays` waiters are registered but hidden from `blocked`, `gone` and `to_unblock`. */
  ghost predicate WaitersDrift(s: Shared, l: Ledger, strays: nat) {
    var blocked, gone := s.blocked + l.pendingBlocked, s.gone + l.pendingGone;
    && gone >= 0 && (l.drainers > 0 ==> blocked == 0)
    && if Granting(s, l) then
         l.waiters == blocked + s.toUnblock + strays && blocked >= 0 && (gone > 0 ==> blocked == 0)
       else
         l.waiters == blocked - gone + strays
  }

  /**
   Tokens beyond those that the counters speak of: one for each execution of line 233, from its
   decrement at 238 on, unless the token has been taken outside any epoch.
   */
  ghost predicate TokensDrift(s: Shared, l: Ledger, strays: nat, spent: nat) {
    var gone := s.gone + l.pendingGone;
    && s.queue + l.owed + spent + l.strays ==
       strays + l.drain + (if Granting(s, l) then s.toUnblock + gone else 0)
    && (Granting(s, l) ==> l.waiters + gone + l.drain <= FOLD_AT && spent <= strays)
    && (l.drain > 0 ==> l.waiters + l.drain <= FOLD_AT)
  }

  /**
   As long as few threads wait at once, `few`, the token semaphore stays clear of its maximum, and
   the law for tokens holds as well.
   */
  ghost predicate Drifted(s: Shared, l: Ledger, strays: nat, spent: nat, few: bool) {
    && WaitersDrift(s, l, strays)
    && (few ==> l.waiters <= FOLD_AT && strays < FOLD_AT && TokensDrift(s, l, strays, spent))
  }

  /** The step is line 233. */
  function Stray(p: Pc): nat { if p.LateTakeBlocked? then 1 else 0 }

  /** A waiter that took a token finds no epoch and gives its registration up (247). */
  function Spends(p: Pc): nat { if p.IdleCount? && p.wake == Token then 1 else 0 }

  /** The law after a step of a thread that stood at `p`, unless that step made the waiters too many. */
  ghost predicate Drifts(s: Shared, l: Ledger, p: Pc, d: nat, k: nat, few: bool) {
    (few ==> l.waiters <= FOLD_AT) ==> Drifted(s, l, d + Stray(p), k + Spends(p), few)
  }

  lemma CallDrifts(s: Shared, t: nat, p: Pc, c: Choice, a: After, l: Ledger, l': Ledger, d: nat, k: nat, few: bool)
    requires p.Idle? && CanAct(s, p, c) && LocalPre(s, t, p) && Seen(s, l, t, p) && Drifted(s, l, d, k, few)
    requires a == Act(s, t, p, c) && Shifted(l, p, l', a.p)
    ensures Drifts(a.sh, l', p, d, k, few)
  {
  }

  lemma SignalEndsDrifts(s: Shared, t: nat, p: Pc, a: After, l: Ledger, l': Ledger, d: nat, k: nat, few: bool)
    requires InSignalEnds(p) && CanAct(s, p, Go) && LocalPre(s, t, p) && Seen(s, l, t, p) && Drifted(s, l, d, k, few)
    requires a == SignalEndsStep(s, t, p) && Shifted(l, p, l', a.p)
    ensures Drifts(a.sh, l', p, d, k, few)
  {
  }

  lemma NotifyDrifts(s: Shared, t: nat, p: Pc, a: After, l: Ledger, l': Ledger, d: nat, k: nat, few: bool)
    requires InNotify(p) && CanAct(s, p, Go) && LocalPre(s, t, p) && Seen(s, l, t, p) && Drifted(s, l, d, k, few)
    requires a == NotifyStep(s, t, p) && Shifted(l, p, l', a.p)
    ensures Drifts(a.sh, l', p, d, k, few)
  {
  }

  lemma GatherDrifts(s: Shared, t: nat, p: Pc, a: After, l: Ledger, l': Ledger, d: nat, k: nat, few: bool)
    requires InOpen(p) && !p.SigOpen? && !p.SigOpenClear? && !p.SigOpenTake? && CanAct(s, p, Go)
    requires LocalPre(s, t, p) && Seen(s, l, t, p) && Drifted(s, l, d, k, few)
    requires a == OpenStep(s, t, p) && Shifted(l, p, l', a.p)
    ensures Drifts(a.sh, l', p, d, k, few)
  {
  }

  lemma GrantDrifts(s: Shared, t: nat, p: Pc, a: After, l: Ledger, l': Ledger, d: nat, k: nat, few: bool)
    requires (p.SigOpen? || p.SigOpenClear? || p.SigOpenTake?) && CanAct(s, p, Go)
    requires LocalPre(s, t, p) && Seen(s, l, t, p) && Drifted(s, l, d, k, few)
    requires a == OpenStep(s, t, p) && Shifted(l, p, l', a.p)
    ensures Drifts(a.sh, l', p, d, k, few)
  {
  }

  lemma OpenDrifts(s: Shared, t: nat, p: Pc, a: After, l: Ledger, l': Ledger, d: nat, k: nat, few: bool)
    requires InOpen(p) && CanAct(s, p, Go) && LocalPre(s, t, p) && Seen(s, l, t, p) && Drifted(s, l, d, k, few)
    requires a == OpenStep(s, t, p) && Shifted(l, p, l', a.p)
    ensures Drifts(a.sh, l', p, d, k, few)
  {
    if !(p.SigOpen? || p.SigOpenClear? || p.SigOpenTake?) {
      GatherDrifts(s, t, p, a, l, l', d, k, few);
    } else {
      GrantDrifts(s, t, p, a, l, l', d, k, few);
    }
  }

  lemma ArriveDrifts(s: Shared, t: nat, p: Pc, c: Choice, a: After, l: Ledger, l': Ledger, d: nat, k: nat, few: bool)
    requires InArrival(p) && CanAct(s, p, c) && LocalPre(s, t, p) && Seen(s, l, t, p) && Drifted(s, l, d, k, few)
    requires a == ArriveStep(s, p, c) && Shifted(l, p, l', a.p)
    ensures Drifts(a.sh, l', p, d, k, few)
  {
  }

  lemma WaitCountDrifts(s: Shared, t: nat, p: Pc, a: After, l: Ledger, l': Ledger, d: nat, k: nat, few: bool)
    requires p.WaitCount? && CanAct(s, p, Go) && LocalPre(s, t, p) && Seen(s, l, t, p)
    requires Drifted(s, l, d, k, few) && a == CountStep(s, t, p) && Shifted(l, p, l', a.p)
    ensures Drifts(a.sh, l', p, d, k, few)
  {
  }

  lemma LateDrifts(s: Shared, t: nat, p: Pc, a: After, l: Ledger, l': Ledger, d: nat, k: nat, few: bool)
    requires InCount(p) && !p.WaitCount? && CanAct(s, p, Go) && LocalPre(s, t, p) && Seen(s, l, t, p)
    requires Drifted(s, l, d, k, few) && a == CountStep(s, t, p) && Shifted(l, p, l', a.p)
    ensures Drifts(a.sh, l', p, d, k, few)
  {
  }

  lemma CountDrifts(s: Shared, t: nat, p: Pc, a: After, l: Ledger, l': Ledger, d: nat, k: nat, few: bool)
    requires InCount(p) && CanAct(s, p, Go) && LocalPre(s, t, p) && Seen(s, l, t, p) && Drifted(s, l, d, k, few)
    requires a == CountStep(s, t, p) && Shifted(l, p, l', a.p)
    ensures Drifts(a.sh, l', p, d, k, few)
  {
    if p.WaitCount? {
      WaitCountDrifts(s, t, p, a, l, l', d, k, few);
    } else {
      LateDrifts(s, t, p, a, l, l', d, k, few);
    }
  }

  lemma FoldDrifts(s: Shared, t: nat, p: Pc, a: After, l: Ledger, l': Ledger, d: nat, k: nat, few: bool)
    requires InFold(p) && CanAct(s, p, Go) && LocalPre(s, t, p) && Seen(s, l, t, p) && Drifted(s, l, d, k, few)
    requires a == FoldStep(s, t, p) && Shifted(l, p, l', a.p)
    ensures Drifts(a.sh, l', p, d, k, few)
  {
  }

  lemma LastDrifts(s: Shared, t: nat, p: Pc, a: After, l: Ledger, l': Ledger, d: nat, k: nat, few: bool)
    requires (p.LastTest? || p.LastReopen? || p.LastGone?) && CanAct(s, p, Go) && LocalPre(s, t, p)
    requires Seen(s, l, t, p) && Drifted(s, l, d, k, few) && a == CloseStep(s, t, p) && Shifted(l, p, l', a.p)
    ensures Drifts(a.sh, l', p, d, k, few)
  {
  }

  lemma LeaveDrifts(s: Shared, t: nat, p: Pc, a: After, l: Ledger, l': Ledger, d: nat, k: nat, few: bool)
    requires (p.WaitLeave? || p.Drain? || p.DrainReopen? || p.WaitRelock?) && CanAct(s, p, Go) && LocalPre(s, t, p)
    requires Seen(s, l, t, p) && Drifted(s, l, d, k, few) && a == CloseStep(s, t, p) && Shifted(l, p, l', a.p)
    ensures Drifts(a.sh, l', p, d, k, few)
  {
  }

  lemma CloseDrifts(s: Shared, t: nat, p: Pc, a: After, l: Ledger, l': Ledger, d: nat, k: nat, few: bool)
    requires InClose(p) && CanAct(s, p, Go) && LocalPre(s, t, p) && Seen(s, l, t, p) && Drifted(s, l, d, k, few)
    requires a == CloseStep(s, t, p) && Shifted(l, p, l', a.p)
    ensures Drifts(a.sh, l', p, d, k, few)
  {
    if p.LastTest? || p.LastReopen? || p.LastGone? {
      LastDrifts(s, t, p, a, l, l', d, k, few);
    } else {
      LeaveDrifts(s, t, p, a, l, l', d, k, few);
    }
  }

  lemma ActDrifts(s: Shared, t: nat, p: Pc, c: Choice, a: After, l: Ledger, l': Ledger, d: nat, k: nat, few: bool)
    requires CanAct(s, p, c) && LocalPre(s, t, p) && Seen(s, l, t, p) && Drifted(s, l, d, k, few)
    requires a == Act(s, t, p, c) && Shifted(l, p, l', a.p)
    ensures Drifts(a.sh, l', p, d, k, few)
  {
    if p.Idle? {
      CallDrifts(s, t, p, c, a, l, l', d, k, few);
    } else if InSignalEnds(p) {
      SignalEndsDrifts(s, t, p, a, l, l', d, k, few);
    } else if InNotify(p) {
      NotifyDrifts(s, t, p, a, l, l', d, k, few);
    } else if InOpen(p) {
      OpenDrifts(s, t, p, a, l, l', d, k, few);
    } else if InArrival(p) {
      ArriveDrifts(s, t, p, c, a, l, l', d, k, few);
    } else if InCount(p) {
      CountDrifts(s, t, p, a, l, l', d, k, few);
    } else if InFold(p) {
      FoldDrifts(s, t, p, a, l, l', d, k, few);
    } else {
      CloseDrifts(s, t, p, a, l, l', d, k, few);
    }
  }

  // ----- the law along runs

  /** The law of a state, after `strays` executions of line 233 and `spent` stray tokens taken. */
  ghost predicate Law(s: State, strays: nat, spent: nat, few: bool) {
    Drifted(s.sh, LedgerOf(s), strays, spent, few)
  }

  lemma StepDrifts(s: State, e: Event, d: nat, k: nat, few: bool)
    requires GateInv(s) && Law(s, d, k, few) && Enabled(s, e) && (few ==> Waiters(Next(s, e)) <= FOLD_AT)
    ensures GateInv(Next(s, e)) && Law(Next(s, e), d + Stray(s.th[e.t]), k + Spends(s.th[e.t]), few)
  {
    var s', a := Next(s, e), Act(s.sh, e.t, s.th[e.t], e.c);
    StepKeepsGate(s, e);
    LedgerSeen(s, e.t);
    LedgerShifts(s, e.t, s');
    KnowsLocally(s, e.t);
    ActDrifts(s.sh, e.t, s.th[e.t], e.c, a, LedgerOf(s), LedgerOf(s'), d, k, few);
  }

  /** How often a schedule executes line 233. */
  function Strays(s: State, es: seq<Event>): nat
    requires Legal(s, es)
    decreases |es|
  {
    if es == [] then 0 else Stray(s.th[es[0].t]) + Strays(Next(s, es[0]), es[1..])
  }

  /** How many tokens it takes outside any epoch. */
  function Spent(s: State, es: seq<Event>): nat
    requires Legal(s, es)
    decreases |es|
  {
    if es == [] then 0 else Spends(s.th[es[0].t]) + Spent(Next(s, es[0]), es[1..])
  }

  lemma {:induction false} RunDrifts(s: State, es: seq<Event>, d: nat, k: nat, few: bool)
    requires GateInv(s) && Law(s, d, k, few) && Legal(s, es) && (few ==> FewWaiters(s, es))
    ensures GateInv(Exec(s, es)) && Law(Exec(s, es), d + Strays(s, es), k + Spent(s, es), few)
    ensures |Exec(s, es).th| == |s.th|
    decreases |es|
  {
    if es != [] {
      StepDrifts(s, es[0], d, k, few);
      RunDrifts(Next(s, es[0]), es[1..], d + Stray(s.th[es[0].t]), k + Spends(s.th[es[0].t]), few);
    }
  }

  lemma InitLaw(n: nat)
    ensures GateInv(Init(n)) && Law(Init(n), 0, 0, true)
  {
    var th := Init(n).th;
    InitGate(n);
    SumZero(th, Waiting);
    SumZero(th, Owed);
    SumZero(th, ToDrain);
    SumZero(th, Closing);
    SumZero(th, Draining);
    SumZero(th, Strayed);
  }

  /** The law at the end of a run from `cnd_init`. */
  lemma LawFromInit(n: nat, es: seq<Event>)
    requires Legal(Init(n), es)
    ensures var z := Exec(Init(n), es);
      && GateInv(z) && |z.th| == n
      && Law(z, Strays(Init(n), es), Spent(Init(n), es), FewWaiters(Init(n), es))
  {
    InitLaw(n);
    RunDrifts(Init(n), es, 0, 0, FewWaiters(Init(n), es));
  }

  /**
   On every run from `cnd_init`, whatever times out: the registered waiters are those that the counters
   speak of and one more for each execution of line 233; and the tokens are those that the counters
   speak of and one more for each execution of line 233 whose token has not been taken yet.
   */
  lemma DriftLaw(n: nat, es: seq<Event>)
    requires Legal(Init(n), es)
    ensures var z, d := Exec(Init(n), es), Strays(Init(n), es);
            var granting := Granting(z.sh, LedgerOf(z));
      && Waiters(z) == d + (if granting then Blocked(z) + z.sh.toUnblock else Blocked(z) - Gone(z))
      && (FewWaiters(Init(n), es) ==>
            Tokens(z) + Spent(Init(n), es) + Sum(z.th, Strayed) ==
            d + DrainLeft(z) + (if granting then z.sh.toUnblock + Gone(z) else 0))
  {
    LawFromInit(n, es);
  }

  /** Who executes line 233 leaves one more waiter behind than have been hidden before. */
  lemma StrayLeavesWaiters(s: State, e: Event, d: nat, k: nat)
    requires GateInv(s) && Law(s, d, k, false) && Enabled(s, e) && Breaks(s, e)
    ensures d + 2 <= Waiters(s) <= |s.th|
  {
    LedgerSeen(s, e.t);
    SumBounded(s.th, Waiting, 1);
    assert LocalOk(s.sh, s.th[e.t]);
  }

  lemma {:induction false} StraysStayFew(s: State, es: seq<Event>, d: nat, k: nat)
    requires GateInv(s) && Law(s, d, k, false) && Legal(s, es) && (d == 0 || d < |s.th|)
    ensures d + Strays(s, es) == 0 || d + Strays(s, es) < |s.th|
    decreases |es|
  {
    if es != [] {
      if Breaks(s, es[0]) {
        StrayLeavesWaiters(s, es[0], d, k);
      }
      StepDrifts(s, es[0], d, k, false);
      StraysStayFew(Next(s, es[0]), es[1..], d + Stray(s.th[es[0].t]), k + Spends(s.th[es[0].t]));
    }
  }

  /** In all its life a condition variable used by `n` threads executes line 233 less than `n` times. */
  lemma StraysAreFew(n: nat, es: seq<Event>)
    requires Legal(Init(n), es) && n > 0
    ensures Strays(Init(n), es) < n
  {
    InitLaw(n);
    StraysStayFew(Init(n), es, 0, 0);
  }

  /** What the tests of 193 and 181 come to, in a state with `d` strays. */
  lemma TestsOverlookStrays(s: Shared, t: nat, p: Pc, l: Ledger, d: nat)
    requires WaitersDrift(s, l, d) && LocalPre(s, t, p) && Seen(s, l, t, p)
    ensures p.SigCompare? ==> (s.blocked > s.gone <==> l.waiters > d)
    ensures p.SigMore? ==> (s.blocked == 0 <==> l.waiters <= s.toUnblock + d)
  {
  }

  /**
   A signaller cannot see the strays: at line 193 it goes on to wake somebody if and only if more
   threads are registered than line 233 has been executed, and at line 181 if and only if more are
   registered than that beyond those already woken.
   */
  lemma SignalOverlooksStrays(n: nat, es: seq<Event>, t: nat)
    requires Legal(Init(n), es) && t < n
    ensures var z, d := Exec(Init(n), es), Strays(Init(n), es);
      && |z.th| == n
      && (z.th[t].SigCompare? ==>
            OpenStep(z.sh, t, z.th[t]).p ==
            if Waiters(z) > d then SigGate(z.th[t].broadcast) else SigLeave(z.th[t].broadcast, 0))
      && (z.th[t].SigMore? ==>
            (NotifyStep(z.sh, t, z.th[t]).p == SigLeave(z.th[t].broadcast, 0) <==>
             Waiters(z) <= z.sh.toUnblock + d))
  {
    LawFromInit(n, es);
    var z := Exec(Init(n), es);
    LedgerSeen(z, t);
    KnowsLocally(z, t);
    TestsOverlookStrays(z.sh, t, z.th[t], LedgerOf(z), Strays(Init(n), es));
  }
}
