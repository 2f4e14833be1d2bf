/**
 No execution of line 233 goes unpunished: whenever it happens, the run can go on, with genuine
 timeouts only, to a complete signal that overlooks a registered waiter, or to a lock-up. The calls under way
 are run to rest and a broadcast wakes all waiters that the counters still know of.
 */
module CondVarHidden {
  import opened Basics
  import opened Tally
  import opened CondVarModel
  import opened CondVarGate
  import opened CondVarAccounting
  import opened CondVarDrift
  import opened CondVarDeadlock
  import opened CondVarProgress
  import opened CondVarLostWakeup

  /** Some waiters are hidden, and not all threads are. */
  ghost predicate Astray(s: State, d: nat, k: nat) {
    GateInv(s) && Law(s, d, k, true) && |s.th| <= FOLD_AT && 1 <= d < |s.th|
  }

  lemma RunStaysAstray(s: State, es: seq<Event>, d: nat, k: nat)
    requires Astray(s, d, k) && Legal(s, es)
    ensures Astray(Exec(s, es), d + Strays(s, es), k + Spent(s, es)) && |Exec(s, es).th| == |s.th|
  {
    FewThreadsFewWaiters(s, es);
    RunDrifts(s, es, d, k, true);
    StraysStayFew(s, es, d, k);
  }

  /** One schedule after another. */
  lemma {:induction false} LeadsThrough(s0: State, a: seq<Event>, s1: State, b: seq<Event>, s2: State)
    requires Leads(s0, a, s1) && Leads(s1, b, s2)
    ensures Leads(s0, a + b, s2)
    decreases |a|
  {
    if a == [] {
      assert a + b == b;
    } else {
      assert (a + b)[1..] == a[1..] + b;
      LeadsThrough(Next(s0, a[0]), a[1..], s1, b, s2);
    }
  }

  // ----- the calls under way come to rest

  /** No call begins and nothing times out. */
  predicate OnlyGo(es: seq<Event>) { forall e :: e in es ==> e.c == Go }

  ghost predicate Settled(s: State) {
    AtRest(s) && forall u :: 0 <= u < |s.th| ==> !s.th[u].WaitRelock?
  }

  lemma {:induction false} Settles(s: State) returns (es: seq<Event>)
    requires GateInv(s)
    ensures Legal(s, es) && OnlyGo(es) && Settled(Exec(s, es)) && Leads(s, es, Exec(s, es))
    decreases StepsLeft(s)
  {
    es := [];
    if u :| 0 <= u < |s.th| && (CanMove(s, u) || s.th[u].WaitRelock?) {
      var e := Event(u, Go);
      StepKeepsGate(s, e);
      StepsRunOut(s, e);
      es := Settles(Next(s, e));
      assert ([e] + es)[1..] == es;
      es := [e] + es;
    }
  }

  /** The thread is outside, or past its wait for a token. */
  predicate Past(p: Pc) { p.Idle? || InCount(p) || InFold(p) || InClose(p) }

  lemma PastStep(s: Shared, t: nat, p: Pc)
    requires Past(p) && CanAct(s, p, Go)
    ensures Past(Act(s, t, p, Go).p)
  {
  }

  lemma {:induction false} PastRun(s: State, es: seq<Event>, t: nat)
    requires Legal(s, es) && OnlyGo(es) && t < |s.th| && Past(s.th[t])
    ensures t < |Exec(s, es).th| && Past(Exec(s, es).th[t])
    decreases |es|
  {
    if es != [] {
      assert es[0] in es && forall e :: e in es[1..] ==> e in es;
      if es[0].t == t {
        PastStep(s.sh, t, s.th[t]);
      }
      PastRun(Next(s, es[0]), es[1..], t);
    }
  }

  // ----- a signal that overlooks a waiter

  /** Thread `t` is free to signal, somebody waits without a token, and the signal would wake nobody. */
  ghost predicate Overlooked(s: State, t: nat) {
    && t < |s.th| && s.th[t].Idle? && Waiters(s) > 0 && Tokens(s) == 0
    && s.sh.monitor == Free && s.sh.toUnblock == 0 && s.sh.blocked <= s.sh.gone
  }

  /** A complete `cnd_signal` then changes nothing. */
  lemma SignalIsVain(s: State, t: nat)
    requires Overlooked(s, t)
    ensures Leads(s, VainSignal(t), s)
  {
    SignalDoesNothing(s.sh, s.th, t);
  }

  // ----- nobody waits: take the stray tokens, then wait

  /** A waiter that has given its registration up, on its way out. */
  predicate OnItsWay(p: Pc) {
    p.Idle? || p.FoldGate? || p.FoldSub? || p.FoldUngate? || p.FoldClear? || p.WaitRelock? ||
    (p.WaitLeave? && p.nleft == 0)
  }

  lemma OnItsWayStep(s: Shared, t: nat, p: Pc)
    requires OnItsWay(p) && CanAct(s, p, Go)
    ensures var a := Act(s, t, p, Go); OnItsWay(a.p) && a.sh.queue == s.queue
  {
  }

  lemma {:induction false} OnTheirWay(s: State, es: seq<Event>)
    requires Legal(s, es) && OnlyGo(es) && forall u :: 0 <= u < |s.th| ==> OnItsWay(s.th[u])
    ensures Strays(s, es) == Spent(s, es) == 0 && Exec(s, es).sh.queue == s.sh.queue
    ensures forall u :: 0 <= u < |Exec(s, es).th| ==> OnItsWay(Exec(s, es).th[u])
    decreases |es|
  {
    if es != [] {
      assert es[0] in es && forall e :: e in es[1..] ==> e in es;
      OnItsWayStep(s.sh, es[0].t, s.th[es[0].t]);
      OnTheirWay(Next(s, es[0]), es[1..]);
    }
  }

  /** Registered outside an epoch while a stray token is there, a waiter takes it (226-229). */
  lemma TakesStray(s0: State, es: seq<Event>, s: Shared, th: seq<Pc>, t: nat) returns (es': seq<Event>)
    requires t < |th| && Leads(s0, es, State(s, th[t := WaitToken(false)])) && s.queue > 0 && s.monitor == Free
    ensures Leads(s0, es', State(s.(queue := s.queue - 1, monitor := HeldBy(t)), th[t := WaitTest(Token)]))
  {
    var s1 := s.(queue := s.queue - 1);
    es' := Then(s0, es, s, th, t, WaitToken(false), Go, After(s1, WaitEnter(Token)));
    es' := Then(s0, es', s1, th, t, WaitEnter(Token), Go, After(s1.(monitor := HeldBy(t)), WaitTest(Token)));
  }

  /** And gives its registration up (230, 247). */
  lemma GivesUp(s0: State, es: seq<Event>, s: Shared, th: seq<Pc>, t: nat) returns (es': seq<Event>, z: State)
    requires t < |th| && Leads(s0, es, State(s, th[t := WaitTest(Token)])) && s.toUnblock == 0
    ensures Leads(s0, es', z) && z.sh.queue == s.queue && |z.th| == |th| && OnItsWay(z.th[t])
    ensures z.th == th[t := z.th[t]]
  {
    es' := Then(s0, es, s, th, t, WaitTest(Token), Go, After(s, IdleCount(Token)));
    var a := FoldStep(s, t, IdleCount(Token));
    es' := Then(s0, es', s, th, t, IdleCount(Token), Go, a);
    z := State(a.sh, th[t := a.p]);
  }

  /** Where the run stands, with everybody outside. */
  ghost predicate AllOutside(s: State, d: nat, k: nat) {
    Astray(s, d, k) && s.sh.toUnblock == 0 && s.sh.gate == 1 && s.sh.monitor == Free &&
    forall u :: 0 <= u < |s.th| ==> s.th[u].Idle?
  }

  lemma OutsideTotals(s: State, d: nat, k: nat)
    requires AllOutside(s, d, k)
    ensures s.sh.blocked - s.sh.gone + d == 0 && s.sh.queue + k == d && !Dead(s)
  {
    SumZero(s.th, Waiting);
    RestTotals(s);
  }

  /** With a stray token there, thread `u` comes and takes it; with none, it registers and is overlooked. */
  lemma WaitsOnce(s: State, d: nat, k: nat, t: nat, u: nat) returns (es: seq<Event>, z: State)
    requires AllOutside(s, d, k) && t < |s.th| && u < |s.th| && t != u
    ensures Leads(s, es, z)
    ensures s.sh.queue == 0 ==> Overlooked(z, t)
    ensures s.sh.queue > 0 ==> z.sh.queue == s.sh.queue - 1 && |z.th| == |s.th|
    ensures s.sh.queue > 0 ==> forall v :: 0 <= v < |z.th| ==> OnItsWay(z.th[v])
  {
    OutsideTotals(s, d, k);
    assert Leads(s, [], s);
    es := Sleeps(s, [], s.sh, s.th, u, false);
    var s1 := s.sh.(blocked := s.sh.blocked + 1);
    z := State(s1, s.th[u := WaitToken(false)]);
    if s.sh.queue == 0 {
      SumOnly(z.th, u, Waiting);
      SumZero(z.th, Owed);
    } else {
      es := TakesStray(s, es, s1, s.th, u);
      es, z := GivesUp(s, es, s1.(queue := s1.queue - 1, monitor := HeldBy(u)), s.th, u);
    }
  }

  /** After taking a stray token thread `u` leaves, and everybody is outside again. */
  lemma LeavesAgain(s: State, d: nat, k: nat) returns (es: seq<Event>, z: State, d': nat, k': nat)
    requires Astray(s, d, k) && forall v :: 0 <= v < |s.th| ==> OnItsWay(s.th[v])
    ensures Leads(s, es, z) && |z.th| == |s.th| && z.sh.queue == s.sh.queue
    ensures Dead(z) || AllOutside(z, d', k')
  {
    es := Settles(s);
    z, d', k' := Exec(s, es), d + Strays(s, es), k + Spent(s, es);
    OnTheirWay(s, es);
    RunStaysAstray(s, es, d, k);
    if !Dead(z) {
      RestIsClean(z, d', k');
    }
  }

  lemma {:induction false} FromOutside(s: State, d: nat, k: nat, t: nat) returns (es: seq<Event>, z: State)
    requires AllOutside(s, d, k) && t < |s.th|
    ensures Leads(s, es, z) && (Dead(z) || Overlooked(z, t))
    decreases s.sh.queue
  {
    es, z := WaitsOnce(s, d, k, t, if t == 0 then 1 else 0);
    if s.sh.queue > 0 {
      var s1, rest, d', k' := z, [], 0, 0;
      RunStaysAstray(s, es, d, k);
      rest, z, d', k' := LeavesAgain(s1, d + Strays(s, es), k + Spent(s, es));
      LeadsThrough(s, es, s1, rest, z);
      es := es + rest;
      if !Dead(z) {
        var s2, more := z, [];
        more, z := FromOutside(s2, d', k', t);
        LeadsThrough(s, es, s2, more, z);
        es := es + more;
      }
    }
  }

  // ----- more wait than are hidden: a broadcast wakes the others

  /** A broadcast finds `blocked > gone` and waits for the gate (179-194). */
  lemma BroadcastGoesOn(s0: State, es: seq<Event>, s: Shared, th: seq<Pc>, t: nat) returns (es': seq<Event>)
    requires t < |th| && Leads(s0, es, State(s, th[t := Idle]))
    requires s.monitor == Free && s.toUnblock == 0 && s.blocked > s.gone
    ensures Leads(s0, es', State(s.(monitor := HeldBy(t)), th[t := SigGate(true)]))
  {
    var s1 := s.(monitor := HeldBy(t));
    es' := Then(s0, es, s, th, t, Idle, CallBroadcast, After(s, SigEnter(true)));
    es' := Then(s0, es', s, th, t, SigEnter(true), Go, After(s1, SigTest(true)));
    es' := Then(s0, es', s1, th, t, SigTest(true), Go, After(s1, SigCompare(true)));
    es' := Then(s0, es', s1, th, t, SigCompare(true), Go, After(s1, SigGate(true)));
  }

  /** It takes those who are gone off `blocked` (195-197). */
  lemma BroadcastFolds(s0: State, es: seq<Event>, s: Shared, th: seq<Pc>, t: nat) returns (es': seq<Event>)
    requires t < |th| && Leads(s0, es, State(s, th[t := SigTestGone(true)]))
    ensures Leads(s0, es', State(s.(blocked := s.blocked - s.gone, gone := 0), th[t := SigOpen(true)]))
  {
    if s.gone == 0 {
      es' := Then(s0, es, s, th, t, SigTestGone(true), Go, After(s, SigOpen(true)));
      assert s == s.(blocked := s.blocked - s.gone, gone := 0);
    } else {
      var s1 := s.(blocked := s.blocked - s.gone);
      es' := Then(s0, es, s, th, t, SigTestGone(true), Go, After(s, SigFold(true)));
      es' := Then(s0, es', s, th, t, SigFold(true), Go, After(s1, SigFoldClear(true, s.gone)));
      es' := Then(s0, es', s1, th, t, SigFoldClear(true, s.gone), Go, After(s1.(gone := 0), SigOpen(true)));
    }
  }

  /** It counts all others into the epoch and posts their tokens (199-210). */
  lemma BroadcastPosts(s0: State, es: seq<Event>, s: Shared, th: seq<Pc>, t: nat) returns (es': seq<Event>)
    requires t < |th| && Leads(s0, es, State(s, th[t := SigOpen(true)]))
    requires s.queue == 0 && 0 < s.blocked <= LONG_MAX
    ensures Leads(s0, es', State(s.(blocked := 0, toUnblock := s.blocked, queue := s.blocked, monitor := Free),
                                 th[t := Idle]))
  {
    var m := s.blocked;
    var s1 := s.(toUnblock := m);
    var s2 := s1.(blocked := 0);
    es' := Then(s0, es, s, th, t, SigOpen(true), Go, After(s1, SigOpenClear(m)));
    es' := Then(s0, es', s1, th, t, SigOpenClear(m), Go, After(s2, SigLeave(true, m)));
    es' := Then(s0, es', s2, th, t, SigLeave(true, m), Go, After(s2.(monitor := Free), SigPost(m)));
    es' := Then(s0, es', s2.(monitor := Free), th, t, SigPost(m), Go, After(s2.(monitor := Free, queue := m), Idle));
  }

  /** A waiter that takes its token and leaves, with nothing to drain. */
  predicate Served(p: Pc) {
    match p
    case Idle => true
    case WaitToken(_) => true
    case WaitEnter(k) => k == Token
    case WaitTest(k) => k == Token
    case WaitCount(k, _, _) => k == Token
    case LastTest(_, _) => true
    case LastGone(_, _) => true
    case WaitLeave(_, _, n) => n == 0
    case Drain(_, n) => n == 0
    case DrainReopen(_) => true
    case WaitRelock(_) => true
    case _ => false
  }

  /** All tokens are accounted for by the epoch, and nobody has to wait for its end in vain. */
  ghost predicate Serving(s: State, d: nat) {
    GateInv(s) && Law(s, d, d, true) && s.sh.blocked == s.sh.gone == 0 &&
    forall u :: 0 <= u < |s.th| ==> Served(s.th[u])
  }

  lemma ServedStep(s: Shared, t: nat, p: Pc, l: Ledger, d: nat, a: After)
    requires Served(p) && CanAct(s, p, Go) && LocalPre(s, t, p) && Seen(s, l, t, p) && Drifted(s, l, d, d, true)
    requires s.blocked == s.gone == l.drain == l.pendingGone == 0 && a == Act(s, t, p, Go)
    ensures Served(a.p) && a.sh.blocked == a.sh.gone == 0 && Stray(p) == Spends(p) == 0
    ensures Waiting(a.p) <= Waiting(p)
  {
  }

  lemma ServingTotals(s: State, d: nat)
    requires Serving(s, d)
    ensures DrainLeft(s) == 0 && PendingGone(Owner(s)) == 0
  {
    SumZero(s.th, ToDrain);
    if s.sh.monitor.HeldBy? {
      assert LocalOk(s.sh, Owner(s));
    }
  }

  lemma StepKeepsServing(s: State, e: Event, d: nat)
    requires Serving(s, d) && Enabled(s, e) && e.c == Go
    ensures Serving(Next(s, e), d) && Stray(s.th[e.t]) == Spends(s.th[e.t]) == 0
  {
    var a := Act(s.sh, e.t, s.th[e.t], Go);
    LedgerSeen(s, e.t);
    KnowsLocally(s, e.t);
    ServingTotals(s, d);
    ServedStep(s.sh, e.t, s.th[e.t], LedgerOf(s), d, a);
    SumUpdate(s.th, e.t, a.p, Waiting);
    StepDrifts(s, e, d, d, true);
  }

  lemma {:induction false} RunKeepsServing(s: State, es: seq<Event>, d: nat)
    requires Serving(s, d) && Legal(s, es) && OnlyGo(es)
    ensures Serving(Exec(s, es), d)
    decreases |es|
  {
    if es != [] {
      assert es[0] in es && forall e :: e in es[1..] ==> e in es;
      StepKeepsServing(s, es[0], d);
      RunKeepsServing(Next(s, es[0]), es[1..], d);
    }
  }

  /** Where the run stands, with everybody outside or waiting without a token, and more waiting than hidden. */
  ghost predicate ManyWait(s: State, d: nat, t: nat) {
    && Astray(s, d, d) && t < |s.th| && s.th[t].Idle? && Waiters(s) > d
    && s.sh.toUnblock == s.sh.queue == 0 && s.sh.gate == 1 && s.sh.monitor == Free
    && forall u :: 0 <= u < |s.th| ==> s.th[u].Idle? || s.th[u].WaitToken?
  }

  lemma Broadcasts(s: State, d: nat, t: nat) returns (es: seq<Event>, z: State)
    requires ManyWait(s, d, t)
    ensures Leads(s, es, z) && z.th == s.th
    ensures z.sh.blocked == z.sh.gone == 0 && z.sh.toUnblock == z.sh.queue == Waiters(s) - d
  {
    RestTotals(s);
    SumBounded(s.th, Waiting, 1);
    assert Leads(s, [], s) && s.th == s.th[t := Idle];
    var s1 := s.sh.(monitor := HeldBy(t));
    var s2 := s1.(gate := 0, begun := s1.begun + 1, blocked := s1.blocked - s1.gone, gone := 0);
    es := BroadcastGoesOn(s, [], s.sh, s.th, t);
    var held := s1.(gate := 0, begun := s1.begun + 1);
    es := Then(s, es, s1, s.th, t, SigGate(true), Go, After(held, SigTestGone(true)));
    es := BroadcastFolds(s, es, held, s.th, t);
    es := BroadcastPosts(s, es, s2, s.th, t);
    z := State(s2.(blocked := 0, toUnblock := s2.blocked, queue := s2.blocked, monitor := Free), s.th);
  }

  /** After the broadcast the law still speaks of `d` hidden waiters, and of no stray token. */
  lemma BroadcastLeavesServing(s: State, d: nat, t: nat, es: seq<Event>, z: State)
    requires ManyWait(s, d, t) && Leads(s, es, z) && z.th == s.th
    requires z.sh.blocked == z.sh.gone == 0 && z.sh.toUnblock == z.sh.queue == Waiters(s) - d
    ensures Serving(z, d)
  {
    RunStaysAstray(s, es, d, d);
    RestTotals(z);
  }

  lemma FromMany(s: State, d: nat, t: nat) returns (es: seq<Event>, z: State)
    requires ManyWait(s, d, t)
    ensures Leads(s, es, z) && Overlooked(z, t)
  {
    var s1;
    es, s1 := Broadcasts(s, d, t);
    RestTotals(s);
    BroadcastLeavesServing(s, d, t, es, s1);
    var rest := Settles(s1);
    z := Exec(s1, rest);
    RunKeepsServing(s1, rest, d);
    PastRun(s1, rest, t);
    LeadsThrough(s, es, s1, rest, z);
    es := es + rest;
    if Dead(z) {
      DeadIsOverdrawn(z, d, d);
    }
    RestIsClean(z, d, d);
  }

  // ----- putting it together

  lemma FromRest(s: State, d: nat, k: nat, t: nat) returns (es: seq<Event>, z: State)
    requires Astray(s, d, k) && Settled(s) && !Dead(s) && t < |s.th| && Past(s.th[t])
    ensures Leads(s, es, z) && (Dead(z) || Overlooked(z, t))
  {
    RestIsClean(s, d, k);
    if Waiters(s) > d {
      es, z := FromMany(s, d, t);
    } else if Waiters(s) > 0 {
      es, z := [], s;
    } else {
      forall u | 0 <= u < |s.th|
        ensures s.th[u].Idle?
      {
        SumAtLeast(s.th, u, Waiting);
      }
      es, z := FromOutside(s, d, k, t);
    }
  }

  lemma FromAstray(s: State, d: nat, k: nat, t: nat) returns (es: seq<Event>, z: State)
    requires Astray(s, d, k) && t < |s.th| && Past(s.th[t])
    ensures Leads(s, es, z) && (Dead(z) || Overlooked(z, t))
  {
    es := Settles(s);
    z := Exec(s, es);
    RunStaysAstray(s, es, d, k);
    PastRun(s, es, t);
    if !Dead(z) {
      var s1, more := z, [];
      more, z := FromRest(s1, d + Strays(s, es), k + Spent(s, es), t);
      LeadsThrough(s, es, s1, more, z);
      es := es + more;
    }
  }

  /**
   After every execution of line 233, on any run from `cnd_init`, the run can go on with genuine timeouts
   only to a state that is locked up, or in which the thread that executed it can make a complete
   call of `cnd_signal` that changes nothing although a registered waiter has no token.
   */
  lemma EveryStrayCosts(n: nat, before: seq<Event>, e: Event) returns (es: seq<Event>, z: State)
    requires n <= FOLD_AT && Legal(Init(n), before)
    requires Enabled(Exec(Init(n), before), e) && Breaks(Exec(Init(n), before), e)
    ensures Leads(Next(Exec(Init(n), before), e), es, z)
    ensures Dead(z) || (Overlooked(z, e.t) && Leads(z, VainSignal(e.t), z))
  {
    var s, d, k := Exec(Init(n), before), Strays(Init(n), before), Spent(Init(n), before);
    FewThreadsFewWaiters(Init(n), before);
    LawFromInit(n, before);
    StrayLeavesWaiters(s, e, d, k);
    FewThreadsFewWaiters(s, [e]);
    StepDrifts(s, e, d, k, true);
    es, z := FromAstray(Next(s, e), d + 1, k, e.t);
    if Overlooked(z, e.t) {
      SignalIsVain(z, e.t);
    }
  }
}
