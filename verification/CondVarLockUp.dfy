/**
 How a single execution of line 233 can lock the condition variable up: a waiter that the counters
 have lost sight of takes the token that a closing thread means to drain.
 */
module CondVarLockUp {
  import opened Basics
  import opened Tally
  import opened CondVarModel
  import opened CondVarGate
  import opened CondVarDrift
  import opened CondVarDeadlock
  import opened CondVarLostWakeup

  /** Thread 2 signals when two waiters are registered and one of them is hidden (179-195). */
  lemma OpensAgain(es: seq<Event>, th: seq<Pc>) returns (es': seq<Event>)
    requires |th| == 4 && Leads(Init(4), es, State(Shared(2, 1, 0, 0, 1, Free, 1, 0, 1), th[2 := SigEnter(false)]))
    ensures Leads(Init(4), es', State(Shared(2, 1, 0, 0, 0, HeldBy(2), 2, 0, 1), th[2 := SigTestGone(false)]))
  {
    var s := Shared(2, 1, 0, 0, 1, HeldBy(2), 1, 0, 1);
    es' := Then(Init(4), es, s.(monitor := Free), th, 2, SigEnter(false), Go, After(s, SigTest(false)));
    es' := Then(Init(4), es', s, th, 2, SigTest(false), Go, After(s, SigCompare(false)));
    es' := Then(Init(4), es', s, th, 2, SigCompare(false), Go, After(s, SigGate(false)));
    es' := Then(Init(4), es', s, th, 2, SigGate(false), Go,
                After(Shared(2, 1, 0, 0, 0, HeldBy(2), 2, 0, 1), SigTestGone(false)));
  }

  /** It takes the gone waiter off `blocked` (195-197). */
  lemma FoldsGone(es: seq<Event>, th: seq<Pc>) returns (es': seq<Event>)
    requires |th| == 4
    requires Leads(Init(4), es, State(Shared(2, 1, 0, 0, 0, HeldBy(2), 2, 0, 1), th[2 := SigTestGone(false)]))
    ensures Leads(Init(4), es', State(Shared(1, 0, 0, 0, 0, HeldBy(2), 2, 0, 1), th[2 := SigOpen(false)]))
  {
    var s := Shared(2, 1, 0, 0, 0, HeldBy(2), 2, 0, 1);
    var s1 := s.(blocked := 1);
    es' := Then(Init(4), es, s, th, 2, SigTestGone(false), Go, After(s, SigFold(false)));
    es' := Then(Init(4), es', s, th, 2, SigFold(false), Go, After(s1, SigFoldClear(false, 1)));
    es' := Then(Init(4), es', s1, th, 2, SigFoldClear(false, 1), Go, After(s1.(gone := 0), SigOpen(false)));
  }

  /** And wakes the one waiter that it can see (203-210). */
  lemma WakesOne(es: seq<Event>, th: seq<Pc>) returns (es': seq<Event>)
    requires |th| == 4
    requires Leads(Init(4), es, State(Shared(1, 0, 0, 0, 0, HeldBy(2), 2, 0, 1), th[2 := SigOpen(false)]))
    ensures Leads(Init(4), es', State(Shared(0, 0, 1, 1, 0, Free, 2, 0, 1), th[2 := Idle]))
  {
    var s := Shared(1, 0, 1, 0, 0, HeldBy(2), 2, 0, 1);
    var s1 := s.(blocked := 0);
    es' := Then(Init(4), es, s.(toUnblock := 0), th, 2, SigOpen(false), Go, After(s, SigOpenTake));
    es' := Then(Init(4), es', s, th, 2, SigOpenTake, Go, After(s1, SigLeave(false, 1)));
    es' := Then(Init(4), es', s1, th, 2, SigLeave(false, 1), Go, After(s1.(monitor := Free), SigPost(1)));
    es' := Then(Init(4), es', s1.(monitor := Free), th, 2, SigPost(1), Go,
                After(s1.(monitor := Free, queue := 1), Idle));
  }

  /** Thread 0, which has timed out, finds `blocked` 0 and counts itself in `gone` (229-235). */
  lemma ComesTo235(es: seq<Event>, th: seq<Pc>) returns (es': seq<Event>)
    requires |th| == 4 && Leads(Init(4), es, State(Shared(0, 0, 1, 1, 0, Free, 2, 0, 1), th[0 := WaitEnter(TimedOut)]))
    ensures Leads(Init(4), es', State(Shared(0, 1, 1, 1, 0, HeldBy(0), 2, 0, 1), th[0 := WaitCount(TimedOut, 1, true)]))
  {
    var s := Shared(0, 0, 1, 1, 0, HeldBy(0), 2, 0, 1);
    es' := Then(Init(4), es, s.(monitor := Free), th, 0, WaitEnter(TimedOut), Go, After(s, WaitTest(TimedOut)));
    es' := Then(Init(4), es', s, th, 0, WaitTest(TimedOut), Go, After(s, LateTest(1)));
    es' := Then(Init(4), es', s, th, 0, LateTest(1), Go, After(s, LateAddGone(1)));
    es' := Then(Init(4), es', s, th, 0, LateAddGone(1), Go, After(s.(gone := 1), WaitCount(TimedOut, 1, true)));
  }

  /** It ends the epoch (238-243). */
  lemma EndsEpochAgain(es: seq<Event>, th: seq<Pc>) returns (es': seq<Event>)
    requires |th| == 4
    requires Leads(Init(4), es, State(Shared(0, 1, 1, 1, 0, HeldBy(0), 2, 0, 1), th[0 := WaitCount(TimedOut, 1, true)]))
    ensures Leads(Init(4), es', State(Shared(0, 1, 0, 1, 0, HeldBy(0), 2, 0, 1), th[0 := LastGone(TimedOut, 1)]))
  {
    var s := Shared(0, 1, 0, 1, 0, HeldBy(0), 2, 0, 1);
    es' := Then(Init(4), es, s.(toUnblock := 1), th, 0, WaitCount(TimedOut, 1, true), Go,
                After(s, LastTest(TimedOut, 1)));
    es' := Then(Init(4), es', s, th, 0, LastTest(TimedOut, 1), Go, After(s, LastGone(TimedOut, 1)));
  }

  /** And sets out to drain one token (243-253). */
  lemma MeansToDrain(es: seq<Event>, th: seq<Pc>) returns (es': seq<Event>)
    requires |th| == 4
    requires Leads(Init(4), es, State(Shared(0, 1, 0, 1, 0, HeldBy(0), 2, 0, 1), th[0 := LastGone(TimedOut, 1)]))
    ensures Leads(Init(4), es', State(Shared(0, 0, 0, 1, 0, Free, 2, 0, 1), th[0 := Drain(TimedOut, 1)]))
  {
    var s := Shared(0, 1, 0, 1, 0, HeldBy(0), 2, 0, 1);
    var s1 := s.(gone := 0);
    es' := Then(Init(4), es, s, th, 0, LastGone(TimedOut, 1), Go, After(s1, WaitLeave(TimedOut, 1, 1)));
    es' := Then(Init(4), es', s1, th, 0, WaitLeave(TimedOut, 1, 1), Go,
                After(s1.(monitor := Free), Drain(TimedOut, 1)));
  }

  /** But the hidden waiter is faster (226-247). */
  lemma HiddenWaiterTakesIt(es: seq<Event>, th: seq<Pc>) returns (es': seq<Event>)
    requires |th| == 4 && Leads(Init(4), es, State(Shared(0, 0, 0, 1, 0, Free, 2, 0, 1), th[3 := WaitToken(false)]))
    ensures Leads(Init(4), es', State(Shared(0, 1, 0, 0, 0, HeldBy(3), 2, 0, 1), th[3 := WaitLeave(Token, 0, 0)]))
  {
    var s := Shared(0, 0, 0, 0, 0, Free, 2, 0, 1);
    var s1 := s.(monitor := HeldBy(3));
    es' := Then(Init(4), es, s.(queue := 1), th, 3, WaitToken(false), Go, After(s, WaitEnter(Token)));
    es' := Then(Init(4), es', s, th, 3, WaitEnter(Token), Go, After(s1, WaitTest(Token)));
    es' := Then(Init(4), es', s1, th, 3, WaitTest(Token), Go, After(s1, IdleCount(Token)));
    es' := Then(Init(4), es', s1, th, 3, IdleCount(Token), Go, After(s1.(gone := 1), WaitLeave(Token, 0, 0)));
  }

  lemma HiddenWaiterReturns(es: seq<Event>, th: seq<Pc>) returns (es': seq<Event>)
    requires |th| == 4
    requires Leads(Init(4), es, State(Shared(0, 1, 0, 0, 0, HeldBy(3), 2, 0, 1), th[3 := WaitLeave(Token, 0, 0)]))
    ensures Leads(Init(4), es', State(Shared(0, 1, 0, 0, 0, Free, 2, 0, 1), th[3 := Idle]))
  {
    var s := Shared(0, 1, 0, 0, 0, Free, 2, 0, 1);
    es' := Then(Init(4), es, s.(monitor := HeldBy(3)), th, 3, WaitLeave(Token, 0, 0), Go, After(s, WaitRelock(Token)));
    es' := Then(Init(4), es', s, th, 3, WaitRelock(Token), Go, After(s, Idle));
  }

  /** Beside the stranded waiter a second one registers and times out. */
  lemma SecondIsLate() returns (es: seq<Event>)
    ensures Leads(Init(4), es, State(Shared(2, 1, 0, 0, 1, Free, 1, 0, 1),
                                     [WaitEnter(TimedOut), Idle, Idle, WaitToken(false)]))
  {
    es := StrandedWaiter();
    var th := [Idle, Idle, Idle, WaitToken(false)];
    var s := Shared(1, 1, 0, 0, 1, Free, 1, 0, 1);
    es := Sleeps(Init(4), es, s, th, 0, true);
    es := Then(Init(4), es, s.(blocked := 2), th, 0, WaitToken(true), TimeOut,
               After(s.(blocked := 2), WaitEnter(TimedOut)));
    assert th[0 := WaitEnter(TimedOut)] == [WaitEnter(TimedOut), Idle, Idle, WaitToken(false)];
  }

  /** A signal for the two of them; the late one sets out to drain. */
  lemma DrainBegins() returns (es: seq<Event>)
    ensures Leads(Init(4), es, State(Shared(0, 0, 0, 1, 0, Free, 2, 0, 1),
                                     [Drain(TimedOut, 1), Idle, Idle, WaitToken(false)]))
  {
    es := SecondIsLate();
    var th := [WaitEnter(TimedOut), Idle, Idle, WaitToken(false)];
    var s := Shared(2, 1, 0, 0, 1, Free, 1, 0, 1);
    assert th == th[2 := Idle] && th == th[0 := WaitEnter(TimedOut)];
    es := Then(Init(4), es, s, th, 2, Idle, CallSignal, After(s, SigEnter(false)));
    es := OpensAgain(es, th);
    es := FoldsGone(es, th);
    es := WakesOne(es, th);
    es := ComesTo235(es, th);
    es := EndsEpochAgain(es, th);
    es := MeansToDrain(es, th);
    assert th[0 := Drain(TimedOut, 1)] == [Drain(TimedOut, 1), Idle, Idle, WaitToken(false)];
  }

  lemma LockUpRun() returns (es: seq<Event>)
    ensures Leads(Init(4), es, State(Shared(0, 1, 0, 0, 0, Free, 2, 0, 1), [Drain(TimedOut, 1), Idle, Idle, Idle]))
  {
    es := DrainBegins();
    var th := [Drain(TimedOut, 1), Idle, Idle, WaitToken(false)];
    assert th == th[3 := WaitToken(false)];
    es := HiddenWaiterTakesIt(es, th);
    es := HiddenWaiterReturns(es, th);
    assert th[3 := Idle] == [Drain(TimedOut, 1), Idle, Idle, Idle];
  }

  const LOCKED_UP: seq<Pc> := [Drain(TimedOut, 1), Idle, Idle, Idle]

  lemma NobodyWaits()
    ensures Sum(LOCKED_UP, Waiting) == Sum(LOCKED_UP, Owed) == 0
  {
    SumZero(LOCKED_UP, Owed);
    SumZero(LOCKED_UP, Waiting);
  }

  lemma OneDrains()
    ensures Sum(LOCKED_UP, ToDrain) == Sum(LOCKED_UP, Closing) == Sum(LOCKED_UP, Draining) == 1
  {
    SumOnly(LOCKED_UP, 0, ToDrain);
    SumOnly(LOCKED_UP, 0, Closing);
    SumOnly(LOCKED_UP, 0, Draining);
  }

  lemma OneDrainerIsDead(n: nat, es: seq<Event>)
    requires Legal(Init(n), es)
    requires Exec(Init(n), es) == State(Shared(0, 1, 0, 0, 0, Free, 2, 0, 1), LOCKED_UP)
    ensures Dead(Exec(Init(n), es)) && Strays(Init(n), es) == 1
  {
    InitGate(n);
    RunKeepsGate(Init(n), es);
    NobodyWaits();
    OneDrains();
    DriftLaw(n, es);
  }

  /**
   A run of four threads with genuine timeouts and a single execution of line 233 that ends with
   everybody outside except one thread in its drain loop: locked up for good.
   */
  lemma LocksUp() returns (es: seq<Event>, s: State)
    ensures Legal(Init(4), es) && Exec(Init(4), es) == s && GenuineRun(Init(4), es) && Strays(Init(4), es) == 1
    ensures s.th == [Drain(TimedOut, 1), Idle, Idle, Idle] && Dead(s)
  {
    es := LockUpRun();
    s := State(Shared(0, 1, 0, 0, 0, Free, 2, 0, 1), LOCKED_UP);
    OneDrainerIsDead(4, es);
  }
}
