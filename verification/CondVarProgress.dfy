/**
 Freedom from internal deadlock: whenever a thread is stuck at the gate, at the monitor or in the
 drain loop, some thread inside the condition variable can move, without the caller's mutex. And the
 calls under way can only make a bounded number of steps, after which every wakeup is delivered.
 */
module CondVarProgress {
  import opened Basics
  import opened Tally
  import opened CondVarModel
  import opened CondVarGate
  import opened CondVarAccounting
  import opened CondVarDrift
  import opened CondVarDeadlock
  import opened CondVarWakeups

  /** Inside a call, and not about to take the caller's mutex (261). */
  predicate Inside(p: Pc) {
    !p.Idle? && !p.WaitRelock?
  }

  ghost predicate CanMove(s: State, u: nat) {
    u < |s.th| && Inside(s.th[u]) && CanAct(s.sh, s.th[u], Go)
  }

  /** Held up by others inside the condition variable, not merely waiting to be woken. */
  predicate HeldUp(p: Pc) {
    Inside(p) && !p.WaitToken?
  }

  /** Nobody inside can move. */
  ghost predicate AtRest(s: State) {
    forall u :: 0 <= u < |s.th| ==> !CanMove(s, u)
  }

  /** With tokens still owed and nobody in the monitor, someone can deliver or account for one. */
  lemma OwedMoves(s: State) returns (u: nat)
    requires GateInv(s) && Sum(s.th, Owed) > 0 && s.sh.monitor == Free
    ensures CanMove(s, u)
  {
    u := SumWitness(s.th, Owed);
  }

  /** While an epoch runs or is being drained, the holder of the monitor does not wait for the gate. */
  lemma MonitorMoves(s: State, d: nat, k: nat) returns (u: nat)
    requires GateInv(s) && Law(s, d, k, true) && s.sh.monitor.HeldBy?
    requires s.sh.toUnblock != 0 || Drainers(s) > 0
    ensures CanMove(s, u)
  {
    u := s.sh.monitor.id;
    assert LocalOk(s.sh, s.th[u]) && InMonitor(s.th[u]);
    if s.sh.toUnblock == 0 {
      SumMonotone(s.th, Draining, Closing);
      var t := SumWitness(s.th, Draining);
      SumAtLeast(s.th, t, GateHeld);
      GateHolderIsAlone(s, t);
    }
  }

  lemma DrainMoves(s: State, d: nat, k: nat, t: nat) returns (u: nat)
    requires GateInv(s) && Law(s, d, k, true) && t < |s.th| && s.th[t].Drain? && !CanAct(s.sh, s.th[t], Go)
    ensures CanMove(s, u) || Dead(s)
  {
    u := t;
    SumAtLeast(s.th, t, Draining);
    SumAtLeast(s.th, t, ToDrain);
    assert LocalOk(s.sh, s.th[t]);
    DrainersHoldGate(s);
    if Sum(s.th, Owed) > 0 {
      if s.sh.monitor == Free {
        u := OwedMoves(s);
      } else {
        u := MonitorMoves(s, d, k);
      }
    }
  }

  lemma EpochMoves(s: State, d: nat, k: nat) returns (u: nat)
    requires GateInv(s) && Law(s, d, k, true) && s.sh.toUnblock != 0
    ensures CanMove(s, u)
  {
    if s.sh.monitor.HeldBy? {
      u := MonitorMoves(s, d, k);
    } else {
      u := SumWitness(s.th, Waiting);
      if !CanMove(s, u) {
        EpochIsFunded(s, d, k);
        u := OwedMoves(s);
      }
    }
  }

  /** A running epoch that nobody is accounting for has tokens to give. */
  lemma EpochIsFunded(s: State, d: nat, k: nat)
    requires GateInv(s) && Law(s, d, k, true) && s.sh.toUnblock != 0 && s.sh.monitor == Free
    ensures Tokens(s) > 0
  {
    forall u | 0 <= u < |s.th|
      ensures Strayed(s.th[u]) == 0
    {
      assert !InMonitor(s.th[u]);
    }
    SumZero(s.th, Strayed);
  }

  lemma GateMoves(s: State, d: nat, k: nat) returns (u: nat)
    requires GateInv(s) && Law(s, d, k, true) && s.sh.gate == 0
    ensures CanMove(s, u) || Dead(s)
  {
    if s.sh.toUnblock != 0 {
      u := EpochMoves(s, d, k);
    } else {
      u := SumWitness(s.th, GateHeld);
      if !CanMove(s, u) {
        u := DrainMoves(s, d, k, u);
      }
    }
  }

  /**
   In every state of every run, line 233 included: whenever a thread is held up, some thread inside the
   condition variable can move, or it is locked up for good.
   */
  lemma NeverStuck(s: State, d: nat, k: nat, t: nat) returns (u: nat)
    requires GateInv(s) && Law(s, d, k, true) && t < |s.th| && HeldUp(s.th[t])
    ensures CanMove(s, u) || Dead(s)
  {
    u := t;
    if !CanMove(s, t) {
      if s.th[t].Drain? {
        u := DrainMoves(s, d, k, t);
      } else if s.sh.gate == 0 {
        u := GateMoves(s, d, k);
      } else {
        u := s.sh.monitor.id;
      }
    }
  }

  /** When nobody can move and it is not locked up, whoever has been notified has been woken. */
  lemma RestIsClean(s: State, d: nat, k: nat)
    requires GateInv(s) && Law(s, d, k, true) && AtRest(s) && !Dead(s)
    ensures forall t :: 0 <= t < |s.th| ==> s.th[t].Idle? || s.th[t].WaitRelock? || s.th[t].WaitToken?
    ensures s.sh.toUnblock == 0 && s.sh.gate == 1 && s.sh.monitor == Free && !EpochOpen(s)
    ensures Sum(s.th, Owed) == 0 && DrainLeft(s) == 0 && s.sh.queue + k == d
    ensures Waiters(s) > 0 ==> s.sh.queue == 0
  {
    forall t | 0 <= t < |s.th|
      ensures !HeldUp(s.th[t])
    {
      if HeldUp(s.th[t]) {
        var u := NeverStuck(s, d, k, t);
      }
    }
    if s.sh.toUnblock != 0 {
      var u := EpochMoves(s, d, k);
    }
    RestTotals(s);
    if Waiters(s) > 0 {
      var u := SumWitness(s.th, Waiting);
      assert s.th[u].WaitToken? && !CanMove(s, u);
    }
  }

  lemma RestsLightly(p: Pc)
    requires !HeldUp(p)
    ensures Closing(p) == Draining(p) == ToDrain(p) == GateHeld(p) == Owed(p) == Strayed(p) == 0
    ensures !InMonitor(p)
  {
  }

  lemma RestTotals(s: State)
    requires GateInv(s) && forall t :: 0 <= t < |s.th| ==> !HeldUp(s.th[t])
    ensures Closers(s) == Drainers(s) == DrainLeft(s) == GateHolders(s) == 0
    ensures Sum(s.th, Owed) == Sum(s.th, Strayed) == 0 && s.sh.monitor == Free
  {
    forall t | 0 <= t < |s.th|
      ensures Closing(s.th[t]) == Draining(s.th[t]) == ToDrain(s.th[t]) == GateHeld(s.th[t]) == 0
      ensures Owed(s.th[t]) == Strayed(s.th[t]) == 0 && !InMonitor(s.th[t])
    {
      RestsLightly(s.th[t]);
    }
    SumZero(s.th, Closing);
    SumZero(s.th, Draining);
    SumZero(s.th, ToDrain);
    SumZero(s.th, GateHeld);
    SumZero(s.th, Owed);
    SumZero(s.th, Strayed);
  }

  /** A state that has spent more stray tokens than there were, and in which nobody can move, is locked up. */
  lemma OverdrawnRestIsDead(s: State, d: nat, k: nat)
    requires GateInv(s) && Law(s, d, k, true) && AtRest(s) && k > d
    ensures Dead(s)
  {
    if !Dead(s) {
      RestIsClean(s, d, k);
    }
  }

  /**
   Exactly when the condition variable locks up, on every run from `cnd_init` of any number of threads
   of which at most INT_MAX/2 wait at once: when nobody inside can move, somebody is held up if and
   only if the state is dead, and that is so if and only if more tokens have been taken outside epochs
   than line 233 has been executed.
   */
  lemma LockedUpExactly(n: nat, es: seq<Event>)
    requires Legal(Init(n), es) && FewWaiters(Init(n), es) && AtRest(Exec(Init(n), es))
    ensures var z := Exec(Init(n), es);
      && ((exists t :: 0 <= t < |z.th| && HeldUp(z.th[t])) <==> Dead(z))
      && (Dead(z) <==> Spent(Init(n), es) > Strays(Init(n), es))
  {
    var z, d, k := Exec(Init(n), es), Strays(Init(n), es), Spent(Init(n), es);
    LawFromInit(n, es);
    if Dead(z) {
      DeadIsOverdrawn(z, d, k);
      var t := SomebodyIsStuck(z);
      assert HeldUp(z.th[t]);
    } else {
      RestIsClean(z, d, k);
    }
  }

  /** And once more have been taken, it locks up on every run that comes to rest, whatever is called. */
  lemma OverdrawnLocksUp(s: State, es: seq<Event>, d: nat, k: nat)
    requires GateInv(s) && Law(s, d, k, true) && k > d && Legal(s, es) && FewWaiters(s, es)
    requires AtRest(Exec(s, es))
    ensures Dead(Exec(s, es))
  {
    RunDrifts(s, es, d, k, true);
    OverdrawnForever(s, es, d, k);
    OverdrawnRestIsDead(Exec(s, es), d, k + Spent(s, es));
  }

  /** Before that, whenever somebody is held up somebody can move. */
  lemma NotStuckUnlessOverdrawn(n: nat, es: seq<Event>, t: nat) returns (u: nat)
    requires Legal(Init(n), es) && FewWaiters(Init(n), es)
    requires t < n && |Exec(Init(n), es).th| == n && HeldUp(Exec(Init(n), es).th[t])
    ensures CanMove(Exec(Init(n), es), u) || Spent(Init(n), es) > Strays(Init(n), es)
  {
    LawFromInit(n, es);
    u := NeverStuck(Exec(Init(n), es), Strays(Init(n), es), Spent(Init(n), es), t);
    if Dead(Exec(Init(n), es)) {
      DeadIsOverdrawn(Exec(Init(n), es), Strays(Init(n), es), Spent(Init(n), es));
    }
  }

  // ----- without line 233

  /** The accounting is the law with nothing gone astray. */
  lemma AccountedIsLaw(s: State)
    requires GateInv(s) && Accounted(s)
    ensures Law(s, 0, 0, true)
  {
    SumMonotone(s.th, Draining, Closing);
    if Drainers(s) > 0 {
      var t := SumWitness(s.th, Draining);
      SumAtLeast(s.th, t, GateHeld);
      GateHolderIsAlone(s, t);
    }
    if DrainLeft(s) > 0 {
      DrainersHoldGate(s);
    }
  }

  /** Every thread that is blocked by another, not merely waiting to be woken, has a thread that can move. */
  lemma NeverStuckAccounted(s: State, t: nat) returns (u: nat)
    requires GateInv(s) && Accounted(s) && t < |s.th| && HeldUp(s.th[t])
    ensures CanMove(s, u)
  {
    AccountedIsLaw(s);
    u := NeverStuck(s, 0, 0, t);
    if Dead(s) {
      DeadIsOverdrawn(s, 0, 0);
    }
  }

  /** A waiter that a notification has reached is never left asleep while all others are idle. */
  lemma QuietMeansUnwoken(s: State)
    requires GateInv(s) && Accounted(s) && AtRest(s)
    ensures forall t :: 0 <= t < |s.th| ==> s.th[t].Idle? || s.th[t].WaitRelock? || s.th[t].WaitToken?
    ensures Tokens(s) == 0 && !EpochOpen(s) && View(s).woken == 0
  {
    AccountedIsLaw(s);
    if Dead(s) {
      DeadIsOverdrawn(s, 0, 0);
    } else {
      RestIsClean(s, 0, 0);
    }
  }

  // ----- calls under way come to rest

  /** Steps that a call at `p` can still make, beyond those of a drain loop that it has yet to begin. */
  function Rank(p: Pc): nat {
    match p
    case Idle => 0
    case SigEnter(_) => 12
    case SigTest(_) => 11
    case SigMore(_) => 5
    case SigAddAll => 4
    case SigClear(_) => 3
    case SigAddOne => 4
    case SigTakeOne => 3
    case SigCompare(_) => 10
    case SigGate(_) => 9
    case SigTestGone(_) => 8
    case SigFold(_) => 7
    case SigFoldClear(_, _) => 6
    case SigOpen(_) => 5
    case SigOpenClear(_) => 3
    case SigOpenTake => 3
    case SigLeave(_, _) => 2
    case SigPost(_) => 1
    case WaitGate(_) => 23
    case WaitLoad(_) => 22
    case WaitStore(_, _) => 21
    case WaitUngate(_) => 20
    case WaitUnlock(_) => 19
    case WaitToken(_) => 18
    case WaitEnter(_) => 17
    case WaitTest(_) => 16
    case LateTest(_) => 12
    case LateTakeBlocked(_) => 11
    case LateAddGone(_) => 11
    case WaitCount(_, _, _) => 9
    case LastTest(_, _) => 8
    case LastReopen(_) => 7
    case LastGone(_, _) => 7
    case IdleCount(_) => 11
    case FoldGate(_) => 9
    case FoldSub(_) => 8
    case FoldUngate(_, _) => 7
    case FoldClear(_, _) => 6
    case WaitLeave(_, _, ngone) => 4 + (if ngone > 0 then ngone else 0)
    case Drain(_, ngone) => 3 + (if ngone > 0 then ngone else 0)
    case DrainReopen(_) => 2
    case WaitRelock(_) => 1
  }

  /** A drain loop yet to begin will take the tokens that `gone` counts. */
  function StepsLeft(s: State): nat {
    (if s.sh.gone > 0 then s.sh.gone else 0) + Sum(s.th, Rank)
  }

  /** A step of a call under way, by the gate invariant, uses up some of them. */
  ghost predicate Falls(s: Shared, p: Pc, a: After) {
    a.sh.gone + Rank(a.p) < s.gone + Rank(p)
  }

  lemma SignalFalls(s: Shared, t: nat, p: Pc, a: After)
    requires (InSignalEnds(p) || InNotify(p) || InOpen(p)) && CanAct(s, p, Go) && LocalPre(s, t, p)
    requires a == Act(s, t, p, Go)
    ensures Falls(s, p, a)
  {
  }

  lemma ArriveFalls(s: Shared, t: nat, p: Pc, c: Choice, a: After)
    requires InArrival(p) && CanAct(s, p, c) && LocalPre(s, t, p) && a == ArriveStep(s, p, c)
    ensures Falls(s, p, a)
  {
  }

  lemma CountFalls(s: Shared, t: nat, p: Pc, a: After)
    requires InCount(p) && CanAct(s, p, Go) && LocalPre(s, t, p) && a == CountStep(s, t, p)
    ensures Falls(s, p, a)
  {
  }

  lemma FoldFalls(s: Shared, t: nat, p: Pc, a: After)
    requires InFold(p) && CanAct(s, p, Go) && LocalPre(s, t, p) && a == FoldStep(s, t, p)
    ensures Falls(s, p, a)
  {
  }

  lemma CloseFalls(s: Shared, t: nat, p: Pc, a: After)
    requires InClose(p) && CanAct(s, p, Go) && LocalPre(s, t, p) && a == CloseStep(s, t, p)
    ensures Falls(s, p, a)
  {
  }

  lemma ActFalls(s: Shared, t: nat, p: Pc, c: Choice, a: After)
    requires CanAct(s, p, c) && !IsCall(c) && LocalPre(s, t, p) && a == Act(s, t, p, c)
    ensures Falls(s, p, a)
  {
    if InSignalEnds(p) || InNotify(p) || InOpen(p) {
      SignalFalls(s, t, p, a);
    } else if InArrival(p) {
      ArriveFalls(s, t, p, c, a);
    } else if InCount(p) {
      CountFalls(s, t, p, a);
    } else if InFold(p) {
      FoldFalls(s, t, p, a);
    } else {
      CloseFalls(s, t, p, a);
    }
  }

  /** Every step of a call under way, timeouts and line 233 included, brings all calls closer to rest. */
  lemma StepsRunOut(s: State, e: Event)
    requires GateInv(s) && Enabled(s, e) && !IsCall(e.c)
    ensures StepsLeft(Next(s, e)) < StepsLeft(s)
  {
    var a := Act(s.sh, e.t, s.th[e.t], e.c);
    StepKeepsGate(s, e);
    SumAtLeast(s.th, e.t, GateHeld);
    ActFalls(s.sh, e.t, s.th[e.t], e.c, a);
    SumUpdate(s.th, e.t, a.p, Rank);
  }

  /** No new call begins. */
  predicate NoCalls(es: seq<Event>) {
    forall e :: e in es ==> !IsCall(e.c)
  }

  /** Without new calls only so many steps are possible, on any schedule and whatever times out. */
  lemma {:induction false} CallsRunOut(s: State, es: seq<Event>)
    requires GateInv(s) && Legal(s, es) && NoCalls(es)
    ensures |es| + StepsLeft(Exec(s, es)) <= StepsLeft(s)
    decreases |es|
  {
    if es != [] {
      assert es[0] in es && forall e :: e in es[1..] ==> e in es;
      StepKeepsGate(s, es[0]);
      StepsRunOut(s, es[0]);
      CallsRunOut(Next(s, es[0]), es[1..]);
    }
  }

  /**
   Every granted wakeup is delivered: however the calls under way are scheduled, if line 233 is not
   executed, they come to rest within a bounded number of steps, and then no waiter that was notified
   is left waiting and no token is left over.
   */
  lemma WakeupsAreDelivered(s: State, es: seq<Event>)
    requires GateInv(s) && Accounted(s) && Legal(s, es) && NeverBreaks(s, es) && NoCalls(es)
    requires FewWaiters(s, es)
    ensures |es| <= StepsLeft(s)
    ensures AtRest(Exec(s, es)) ==> Tokens(Exec(s, es)) == 0 && View(Exec(s, es)).woken == 0
  {
    CallsRunOut(s, es);
    RunKeepsGate(s, es);
    RunKeepsAccounting(s, es);
    var z := Exec(s, es);
    if AtRest(z) {
      QuietMeansUnwoken(z);
    }
  }
}
