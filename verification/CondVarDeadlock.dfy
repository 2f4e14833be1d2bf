/**
 Locked up for good: a closing thread waits in its drain loop for a token that does not exist, holding
 the gate, and nothing that any thread does later frees it. This is so exactly when more tokens have
 been taken outside epochs than line 233 has left behind.
 */
module CondVarDeadlock {
  import opened Tally
  import opened CondVarModel
  import opened CondVarGate
  import opened CondVarAccounting
  import opened CondVarDrift

  /** Somebody still has tokens to drain, none exists, and no signaller can create one. */
  ghost predicate DeadLedger(s: Shared, l: Ledger) {
    && s.toUnblock == 0 && s.queue == 0 && l.owed == 0 && l.drain > 0
    && s.blocked + l.pendingBlocked <= s.gone + l.pendingGone
  }

  ghost predicate Dead(s: State) {
    GateInv(s) && DeadLedger(s.sh, LedgerOf(s))
  }

  /** Waiting for the gate to register, for a token without a time limit, or to drain one. */
  predicate Waits(p: Pc) {
    p.WaitGate? || p == WaitToken(false) || (p.Drain? && p.ngone > 0)
  }

  lemma SignalStaysDead(s: Shared, t: nat, p: Pc, a: After, l: Ledger, l': Ledger)
    requires (InSignalEnds(p) || InNotify(p) || InOpen(p)) && CanAct(s, p, Go) && LocalPre(s, t, p)
    requires Seen(s, l, t, p) && DeadLedger(s, l) && a == Act(s, t, p, Go) && Shifted(l, p, l', a.p)
    ensures DeadLedger(a.sh, l')
  {
  }

  lemma WaitStaysDead(s: Shared, t: nat, p: Pc, c: Choice, a: After, l: Ledger, l': Ledger)
    requires (InArrival(p) || InCount(p)) && CanAct(s, p, c) && LocalPre(s, t, p)
    requires Seen(s, l, t, p) && DeadLedger(s, l) && a == Act(s, t, p, c) && Shifted(l, p, l', a.p)
    ensures DeadLedger(a.sh, l') && !Waits(p)
  {
  }

  lemma LeaveStaysDead(s: Shared, t: nat, p: Pc, a: After, l: Ledger, l': Ledger)
    requires (InFold(p) || InClose(p)) && CanAct(s, p, Go) && LocalPre(s, t, p)
    requires Seen(s, l, t, p) && DeadLedger(s, l) && a == Act(s, t, p, Go) && Shifted(l, p, l', a.p)
    ensures DeadLedger(a.sh, l') && !Waits(p)
  {
  }

  lemma ActStaysDead(s: Shared, t: nat, p: Pc, c: Choice, a: After, l: Ledger, l': Ledger)
    requires CanAct(s, p, c) && LocalPre(s, t, p)
    requires Seen(s, l, t, p) && DeadLedger(s, l) && a == Act(s, t, p, c) && Shifted(l, p, l', a.p)
    ensures DeadLedger(a.sh, l') && !Waits(p)
  {
    if InSignalEnds(p) || InNotify(p) || InOpen(p) {
      SignalStaysDead(s, t, p, a, l, l');
    } else if InArrival(p) || InCount(p) {
      WaitStaysDead(s, t, p, c, a, l, l');
    } else if !p.Idle? {
      LeaveStaysDead(s, t, p, a, l, l');
    }
  }

  lemma StepStaysDead(s: State, e: Event)
    requires Dead(s) && Enabled(s, e)
    ensures Dead(Next(s, e)) && !Waits(s.th[e.t])
  {
    var s', a := Next(s, e), Act(s.sh, e.t, s.th[e.t], e.c);
    StepKeepsGate(s, e);
    LedgerSeen(s, e.t);
    LedgerShifts(s, e.t, s');
    KnowsLocally(s, e.t);
    ActStaysDead(s.sh, e.t, s.th[e.t], e.c, a, LedgerOf(s), LedgerOf(s'));
  }

  /**
   Whatever calls follow, on any schedule and with any timeouts: nobody who waits for the gate ever
   registers, nobody who waits without a time limit is ever woken, and the drain loop never ends.
   */
  lemma {:induction false} DeadForever(s: State, es: seq<Event>)
    requires Dead(s) && Legal(s, es)
    ensures Dead(Exec(s, es)) && |Exec(s, es).th| == |s.th|
    ensures forall u :: 0 <= u < |s.th| && Waits(s.th[u]) ==> Exec(s, es).th[u] == s.th[u]
    decreases |es|
  {
    if es != [] {
      StepStaysDead(s, es[0]);
      DeadForever(Next(s, es[0]), es[1..]);
    }
  }

  /** Somebody is in the drain loop, or one step away from it. */
  lemma SomebodyIsStuck(s: State) returns (u: nat)
    requires Dead(s)
    ensures u < |s.th| && (s.th[u].Drain? || s.th[u].WaitLeave?) && s.th[u].ngone > 0
  {
    u := SumWitness(s.th, ToDrain);
  }

  // ----- and what leads there

  /** Between 233 and 238 an epoch is running. */
  lemma NoneStrayed(s: State)
    requires GateInv(s) && s.sh.toUnblock == 0
    ensures Sum(s.th, Strayed) == 0
  {
    forall u | 0 <= u < |s.th|
      ensures Strayed(s.th[u]) == 0
    {
      assert LocalOk(s.sh, s.th[u]);
    }
    SumZero(s.th, Strayed);
  }

  /** Whoever has tokens left to drain holds the gate, past the end of the epoch. */
  lemma DrainersHoldGate(s: State)
    requires GateInv(s) && DrainLeft(s) > 0
    ensures s.sh.toUnblock == 0 && s.sh.gate == 0 && Closers(s) == Drainers(s) == 1
  {
    var t := SumWitness(s.th, ToDrain);
    SumAtLeast(s.th, t, GateHeld);
    GateHolderIsAlone(s, t);
  }

  /** A locked-up state has spent more stray tokens than line 233 has left behind. */
  lemma DeadIsOverdrawn(s: State, d: nat, k: nat)
    requires Dead(s) && Law(s, d, k, true)
    ensures k > d
  {
    DrainersHoldGate(s);
    NoneStrayed(s);
  }

  /** Once that has happened no step undoes it: somebody has tokens to drain that do not exist. */
  lemma StepStaysOverdrawn(s: State, e: Event, d: nat, k: nat)
    requires GateInv(s) && Law(s, d, k, true) && k > d && Enabled(s, e) && Waiters(Next(s, e)) <= FOLD_AT
    ensures GateInv(Next(s, e)) && Law(Next(s, e), d, k + Spends(s.th[e.t]), true) && Stray(s.th[e.t]) == 0
  {
    StepDrifts(s, e, d, k, true);
    assert LocalOk(s.sh, s.th[e.t]);
  }

  lemma OverdrawnIsShort(s: State, d: nat, k: nat)
    requires GateInv(s) && Law(s, d, k, true) && k > d
    ensures Tokens(s) < DrainLeft(s)
  {
  }

  /** From then on, on every run, fewer tokens exist than the draining thread still needs. */
  lemma {:induction false} OverdrawnForever(s: State, es: seq<Event>, d: nat, k: nat)
    requires GateInv(s) && Law(s, d, k, true) && k > d && Legal(s, es) && FewWaiters(s, es)
    ensures Strays(s, es) == 0 && Tokens(Exec(s, es)) < DrainLeft(Exec(s, es))
    decreases |es|
  {
    if es == [] {
      OverdrawnIsShort(s, d, k);
    } else {
      StepStaysOverdrawn(s, es[0], d, k);
      OverdrawnForever(Next(s, es[0]), es[1..], d, k + Spends(s.th[es[0].t]));
    }
  }
}
