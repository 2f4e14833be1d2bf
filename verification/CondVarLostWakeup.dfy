/**
 A run on which the accounting fails: a waiter times out before any token exists, a signal is sent to
 the other waiter, and only then does the first one come to line 233. A token is left behind, it is
 taken outside any epoch, and the next signal finds `blocked > gone` false and wakes nobody.
 */
module CondVarLostWakeup {
  import opened Basics
  import opened Tally
  import opened CondVarModel

  /** A wait on a semaphore times out only while the semaphore holds no token. */
  predicate Genuine(s: State, e: Event) {
    e.c == TimeOut ==> s.sh.queue == 0
  }

  ghost predicate GenuineRun(s: State, es: seq<Event>)
    requires Legal(s, es)
    decreases |es|
  {
    es != [] ==> Genuine(s, es[0]) && GenuineRun(Next(s, es[0]), es[1..])
  }

  /** The schedule `es` leads from `s0` to `s`, and all its timeouts are genuine. */
  ghost predicate Leads(s0: State, es: seq<Event>, s: State) {
    Legal(s0, es) && Exec(s0, es) == s && GenuineRun(s0, es)
  }

  lemma {:induction false} LeadsOn(s: State, es: seq<Event>, e: Event)
    requires Legal(s, es) && GenuineRun(s, es) && Enabled(Exec(s, es), e) && Genuine(Exec(s, es), e)
    ensures Leads(s, es + [e], Next(Exec(s, es), e))
    decreases |es|
  {
    if es == [] {
      assert [e][1..] == [];
    } else {
      assert (es + [e])[1..] == es[1..] + [e];
      LeadsOn(Next(s, es[0]), es[1..], e);
    }
  }

  /** One more step of thread `t`, which stands at `p`. */
  lemma Then(s0: State, es: seq<Event>, s: Shared, th: seq<Pc>, t: nat, p: Pc, c: Choice, a: After)
      returns (es': seq<Event>)
    requires t < |th| && Leads(s0, es, State(s, th[t := p]))
    requires CanAct(s, p, c) && Act(s, t, p, c) == a && (c == TimeOut ==> s.queue == 0)
    ensures es' == es + [Event(t, c)] && Leads(s0, es', State(a.sh, th[t := a.p]))
  {
    es' := es + [Event(t, c)];
    LeadsOn(s0, es, Event(t, c));
    assert th[t := p][t := a.p] == th[t := a.p];
  }

  /** A registration (220-224) on an open gate, first half and second half. */
  lemma Registers(s0: State, es: seq<Event>, s: Shared, th: seq<Pc>, t: nat, timed: bool) returns (es': seq<Event>)
    requires t < |th| && s.gate == 1 && Leads(s0, es, State(s, th[t := Idle]))
    ensures Leads(s0, es', State(s.(gate := 0), th[t := WaitStore(timed, s.blocked)]))
  {
    var c := if timed then CallTimedWait else CallWait;
    es' := Then(s0, es, s, th, t, Idle, c, After(s, WaitGate(timed)));
    es' := Then(s0, es', s, th, t, WaitGate(timed), Go, After(s.(gate := 0), WaitLoad(timed)));
    es' := Then(s0, es', s.(gate := 0), th, t, WaitLoad(timed), Go,
                After(s.(gate := 0), WaitStore(timed, s.blocked)));
  }

  lemma FallsAsleep(s0: State, es: seq<Event>, s: Shared, th: seq<Pc>, t: nat, timed: bool) returns (es': seq<Event>)
    requires t < |th| && s.gate == 0 && Leads(s0, es, State(s, th[t := WaitStore(timed, s.blocked)]))
    ensures Leads(s0, es', State(s.(gate := 1, blocked := s.blocked + 1), th[t := WaitToken(timed)]))
  {
    var s1 := s.(blocked := s.blocked + 1);
    var s2 := s1.(gate := 1);
    es' := Then(s0, es, s, th, t, WaitStore(timed, s.blocked), Go, After(s1, WaitUngate(timed)));
    es' := Then(s0, es', s1, th, t, WaitUngate(timed), Go, After(s2, WaitUnlock(timed)));
    es' := Then(s0, es', s2, th, t, WaitUnlock(timed), Go, After(s2, WaitToken(timed)));
  }

  lemma Sleeps(s0: State, es: seq<Event>, s: Shared, th: seq<Pc>, t: nat, timed: bool) returns (es': seq<Event>)
    requires t < |th| && s.gate == 1 && th[t] == Idle && Leads(s0, es, State(s, th))
    ensures Leads(s0, es', State(s.(blocked := s.blocked + 1), th[t := WaitToken(timed)]))
  {
    assert th == th[t := Idle];
    es' := Registers(s0, es, s, th, t, timed);
    es' := FallsAsleep(s0, es', s.(gate := 0), th, t, timed);
    assert s.(gate := 1) == s;
  }

  /** Thread 2 signals (179-194) with two waiters registered. */
  lemma TakesGate(es: seq<Event>, th: seq<Pc>) returns (es': seq<Event>)
    requires |th| == 4 && Leads(Init(4), es, State(Shared(2, 0, 0, 0, 1, Free, 0, 0, 0), th[2 := SigEnter(false)]))
    ensures Leads(Init(4), es', State(Shared(2, 0, 0, 0, 0, HeldBy(2), 1, 0, 0), th[2 := SigTestGone(false)]))
  {
    var s := Shared(2, 0, 0, 0, 1, HeldBy(2), 0, 0, 0);
    es' := Then(Init(4), es, s.(monitor := Free), th, 2, SigEnter(false), Go, After(s, SigTest(false)));
    es' := Then(Init(4), es', s, th, 2, SigTest(false), Go, After(s, SigCompare(false)));
    es' := Then(Init(4), es', s, th, 2, SigCompare(false), Go, After(s, SigGate(false)));
    es' := Then(Init(4), es', s, th, 2, SigGate(false), Go,
                After(Shared(2, 0, 0, 0, 0, HeldBy(2), 1, 0, 0), SigTestGone(false)));
  }

  /** It opens an epoch for one of them (195-204). */
  lemma Opens(es: seq<Event>, th: seq<Pc>) returns (es': seq<Event>)
    requires |th| == 4
    requires Leads(Init(4), es, State(Shared(2, 0, 0, 0, 0, HeldBy(2), 1, 0, 0), th[2 := SigTestGone(false)]))
    ensures Leads(Init(4), es', State(Shared(1, 0, 1, 0, 0, HeldBy(2), 1, 0, 0), th[2 := SigLeave(false, 1)]))
  {
    var s := Shared(2, 0, 0, 0, 0, HeldBy(2), 1, 0, 0);
    es' := Then(Init(4), es, s, th, 2, SigTestGone(false), Go, After(s, SigOpen(false)));
    es' := Then(Init(4), es', s, th, 2, SigOpen(false), Go, After(s.(toUnblock := 1), SigOpenTake));
    es' := Then(Init(4), es', s.(toUnblock := 1), th, 2, SigOpenTake, Go,
                After(s.(toUnblock := 1, blocked := 1), SigLeave(false, 1)));
  }

  /** And posts one token (207-210). */
  lemma Posts(es: seq<Event>, th: seq<Pc>) returns (es': seq<Event>)
    requires |th| == 4
    requires Leads(Init(4), es, State(Shared(1, 0, 1, 0, 0, HeldBy(2), 1, 0, 0), th[2 := SigLeave(false, 1)]))
    ensures Leads(Init(4), es', State(Shared(1, 0, 1, 1, 0, Free, 1, 0, 0), th[2 := Idle]))
  {
    var s := Shared(1, 0, 1, 0, 0, Free, 1, 0, 0);
    es' := Then(Init(4), es, s.(monitor := HeldBy(2)), th, 2, SigLeave(false, 1), Go, After(s, SigPost(1)));
    es' := Then(Init(4), es', s, th, 2, SigPost(1), Go, After(s.(queue := 1), Idle));
  }

  /** Thread 0, which has timed out, finds `to_unblock` and `blocked` both 1 and reaches line 233. */
  lemma ComesTo233(es: seq<Event>, th: seq<Pc>) returns (es': seq<Event>)
    requires |th| == 4 && Leads(Init(4), es, State(Shared(1, 0, 1, 1, 0, Free, 1, 0, 0), th[0 := WaitEnter(TimedOut)]))
    ensures Leads(Init(4), es', State(Shared(1, 0, 1, 1, 0, HeldBy(0), 1, 0, 0), th[0 := LateTakeBlocked(1)]))
  {
    var s := Shared(1, 0, 1, 1, 0, Free, 1, 0, 0);
    var s1 := s.(monitor := HeldBy(0));
    es' := Then(Init(4), es, s, th, 0, WaitEnter(TimedOut), Go, After(s1, WaitTest(TimedOut)));
    es' := Then(Init(4), es', s1, th, 0, WaitTest(TimedOut), Go, After(s1, LateTest(1)));
    es' := Then(Init(4), es', s1, th, 0, LateTest(1), Go, After(s1, LateTakeBlocked(1)));
  }

  /** Its decrement takes `to_unblock` to 0 (233-238). */
  lemma CountsItself(es: seq<Event>, th: seq<Pc>) returns (es': seq<Event>)
    requires |th| == 4
    requires Leads(Init(4), es, State(Shared(1, 0, 1, 1, 0, HeldBy(0), 1, 0, 0), th[0 := LateTakeBlocked(1)]))
    ensures Leads(Init(4), es', State(Shared(0, 0, 0, 1, 0, HeldBy(0), 1, 0, 0), th[0 := LastTest(TimedOut, 1)]))
  {
    var s := Shared(0, 0, 1, 1, 0, HeldBy(0), 1, 0, 0);
    es' := Then(Init(4), es, s.(blocked := 1), th, 0, LateTakeBlocked(1), Go,
                After(s, WaitCount(TimedOut, 1, false)));
    es' := Then(Init(4), es', s, th, 0, WaitCount(TimedOut, 1, false), Go,
                After(s.(toUnblock := 0), LastTest(TimedOut, 1)));
  }

  /** That ends the epoch (239-244). */
  lemma EndsEpoch(es: seq<Event>, th: seq<Pc>) returns (es': seq<Event>)
    requires |th| == 4
    requires Leads(Init(4), es, State(Shared(0, 0, 0, 1, 0, HeldBy(0), 1, 0, 0), th[0 := LastTest(TimedOut, 1)]))
    ensures Leads(Init(4), es', State(Shared(0, 0, 0, 1, 0, HeldBy(0), 1, 0, 0), th[0 := WaitLeave(TimedOut, 1, 0)]))
  {
    var s := Shared(0, 0, 0, 1, 0, HeldBy(0), 1, 0, 0);
    es' := Then(Init(4), es, s, th, 0, LastTest(TimedOut, 1), Go, After(s, LastGone(TimedOut, 1)));
    es' := Then(Init(4), es', s, th, 0, LastGone(TimedOut, 1), Go, After(s, WaitLeave(TimedOut, 1, 0)));
  }

  /** It finds nothing to drain, although a token is there (253-256). */
  lemma DrainsNothing(es: seq<Event>, th: seq<Pc>) returns (es': seq<Event>)
    requires |th| == 4
    requires Leads(Init(4), es, State(Shared(0, 0, 0, 1, 0, HeldBy(0), 1, 0, 0), th[0 := WaitLeave(TimedOut, 1, 0)]))
    ensures Leads(Init(4), es', State(Shared(0, 0, 0, 1, 0, Free, 1, 0, 0), th[0 := DrainReopen(TimedOut)]))
  {
    var s := Shared(0, 0, 0, 1, 0, Free, 1, 0, 0);
    es' := Then(Init(4), es, s.(monitor := HeldBy(0)), th, 0, WaitLeave(TimedOut, 1, 0), Go,
                After(s, Drain(TimedOut, 0)));
    es' := Then(Init(4), es', s, th, 0, Drain(TimedOut, 0), Go, After(s, DrainReopen(TimedOut)));
  }

  /** It reopens the gate and returns; the token is left behind (258-261). */
  lemma LeavesToken(es: seq<Event>, th: seq<Pc>) returns (es': seq<Event>)
    requires |th| == 4
    requires Leads(Init(4), es, State(Shared(0, 0, 0, 1, 0, Free, 1, 0, 0), th[0 := DrainReopen(TimedOut)]))
    ensures Leads(Init(4), es', State(Shared(0, 0, 0, 1, 1, Free, 1, 0, 1), th[0 := Idle]))
  {
    var s := Shared(0, 0, 0, 1, 0, Free, 1, 0, 0);
    var s1 := Shared(0, 0, 0, 1, 1, Free, 1, 0, 1);
    es' := Then(Init(4), es, s, th, 0, DrainReopen(TimedOut), Go, After(s1, WaitRelock(TimedOut)));
    es' := Then(Init(4), es', s1, th, 0, WaitRelock(TimedOut), Go, After(s1, Idle));
  }

  /** Thread 1 takes that token outside any epoch and counts itself in `gone` (247). */
  lemma TakesToken(es: seq<Event>, th: seq<Pc>) returns (es': seq<Event>)
    requires |th| == 4 && Leads(Init(4), es, State(Shared(0, 0, 0, 1, 1, Free, 1, 0, 1), th[1 := WaitToken(false)]))
    ensures Leads(Init(4), es', State(Shared(0, 1, 0, 0, 1, HeldBy(1), 1, 0, 1), th[1 := WaitLeave(Token, 0, 0)]))
  {
    var s := Shared(0, 0, 0, 0, 1, Free, 1, 0, 1);
    var s1 := s.(monitor := HeldBy(1));
    es' := Then(Init(4), es, s.(queue := 1), th, 1, WaitToken(false), Go, After(s, WaitEnter(Token)));
    es' := Then(Init(4), es', s, th, 1, WaitEnter(Token), Go, After(s1, WaitTest(Token)));
    es' := Then(Init(4), es', s1, th, 1, WaitTest(Token), Go, After(s1, IdleCount(Token)));
    es' := Then(Init(4), es', s1, th, 1, IdleCount(Token), Go, After(s1.(gone := 1), WaitLeave(Token, 0, 0)));
  }

  lemma Returns(es: seq<Event>, th: seq<Pc>) returns (es': seq<Event>)
    requires |th| == 4
    requires Leads(Init(4), es, State(Shared(0, 1, 0, 0, 1, HeldBy(1), 1, 0, 1), th[1 := WaitLeave(Token, 0, 0)]))
    ensures Leads(Init(4), es', State(Shared(0, 1, 0, 0, 1, Free, 1, 0, 1), th[1 := Idle]))
  {
    var s := Shared(0, 1, 0, 0, 1, Free, 1, 0, 1);
    es' := Then(Init(4), es, s.(monitor := HeldBy(1)), th, 1, WaitLeave(Token, 0, 0), Go,
                After(s, WaitRelock(Token)));
    es' := Then(Init(4), es', s, th, 1, WaitRelock(Token), Go, After(s, Idle));
  }

  /** Two waiters, one of which times out. */
  lemma OneOfTwoLate() returns (es: seq<Event>)
    ensures Leads(Init(4), es, State(Shared(2, 0, 0, 0, 1, Free, 0, 0, 0),
                                     [WaitEnter(TimedOut), WaitToken(false), Idle, Idle]))
  {
    var th := [Idle, Idle, Idle, Idle];
    assert Init(4).th == th;
    assert Leads(Init(4), [], Init(4));
    es := Sleeps(Init(4), [], Init(4).sh, th, 0, true);
    th := [WaitToken(true), Idle, Idle, Idle];
    es := Sleeps(Init(4), es, Init(4).sh.(blocked := 1), th, 1, false);
    th := [WaitToken(true), WaitToken(false), Idle, Idle];
    assert th == th[0 := WaitToken(true)];
    var s := Shared(2, 0, 0, 0, 1, Free, 0, 0, 0);
    es := Then(Init(4), es, s, th, 0, WaitToken(true), TimeOut, After(s, WaitEnter(TimedOut)));
    assert th[0 := WaitEnter(TimedOut)] == [WaitEnter(TimedOut), WaitToken(false), Idle, Idle];
  }

  /** And then a signal for one of them. */
  lemma OneOfTwoSignalled() returns (es: seq<Event>)
    ensures Leads(Init(4), es, State(Shared(1, 0, 1, 1, 0, Free, 1, 0, 0),
                                     [WaitEnter(TimedOut), WaitToken(false), Idle, Idle]))
  {
    es := OneOfTwoLate();
    var th := [WaitEnter(TimedOut), WaitToken(false), Idle, Idle];
    assert th == th[2 := Idle];
    var s := Shared(2, 0, 0, 0, 1, Free, 0, 0, 0);
    es := Then(Init(4), es, s, th, 2, Idle, CallSignal, After(s, SigEnter(false)));
    es := TakesGate(es, th);
    es := Opens(es, th);
    es := Posts(es, th);
  }

  /** One waiter, nobody else inside, and `gone` is 1 although nobody has gone. */
  lemma StrandedWaiter() returns (es: seq<Event>)
    ensures Leads(Init(4), es, State(Shared(1, 1, 0, 0, 1, Free, 1, 0, 1), [Idle, Idle, Idle, WaitToken(false)]))
  {
    es := OneOfTwoSignalled();
    var th := [WaitEnter(TimedOut), WaitToken(false), Idle, Idle];
    assert th == th[0 := WaitEnter(TimedOut)];
    es := ComesTo233(es, th);
    es := CountsItself(es, th);
    es := EndsEpoch(es, th);
    es := DrainsNothing(es, th);
    es := LeavesToken(es, th);
    th := [Idle, WaitToken(false), Idle, Idle];
    assert th == th[1 := WaitToken(false)];
    es := TakesToken(es, th);
    es := Returns(es, th);
    th := [Idle, Idle, Idle, Idle];
    es := Sleeps(Init(4), es, Shared(0, 1, 0, 0, 1, Free, 1, 0, 1), th, 3, false);
    assert th[3 := WaitToken(false)] == [Idle, Idle, Idle, WaitToken(false)];
  }

  /** The four steps of a signalling call of thread `t` that wakes nobody. */
  function VainSignal(t: nat): seq<Event> {
    [Event(t, CallSignal), Event(t, Go), Event(t, Go), Event(t, Go), Event(t, Go)]
  }

  /** A complete signal that finds `blocked > gone` false. */
  lemma SignalDoesNothing(s: Shared, th: seq<Pc>, t: nat)
    requires t < |th| && th[t] == Idle && s.monitor == Free && s.toUnblock == 0 && s.blocked <= s.gone
    ensures Leads(State(s, th), VainSignal(t), State(s, th))
  {
    var s0, s1 := State(s, th), s.(monitor := HeldBy(t));
    assert th == th[t := Idle];
    assert Leads(s0, [], s0);
    var call := Then(s0, [], s, th, t, Idle, CallSignal, After(s, SigEnter(false)));
    call := Then(s0, call, s, th, t, SigEnter(false), Go, After(s1, SigTest(false)));
    call := Then(s0, call, s1, th, t, SigTest(false), Go, After(s1, SigCompare(false)));
    call := Then(s0, call, s1, th, t, SigCompare(false), Go, After(s1, SigLeave(false, 0)));
    call := Then(s0, call, s1, th, t, SigLeave(false, 0), Go, After(s, Idle));
    assert call == VainSignal(t);
  }

  const STRANDED: State := State(Shared(1, 1, 0, 0, 1, Free, 1, 0, 1), [Idle, Idle, Idle, WaitToken(false)])

  lemma LoneWaiter()
    ensures Waiters(STRANDED) == 1 && Tokens(STRANDED) == 0 && !Enabled(STRANDED, Event(3, Go))
  {
    SumOnly(STRANDED.th, 3, Waiting);
    SumZero(STRANDED.th, Owed);
  }

  /**
   A state reached with genuine timeouts only, in which one thread waits and nobody else is in the
   condition variable, and a complete `cnd_signal` from there that changes nothing: the waiter sleeps
   on without a token.
   */
  lemma SignalIsLost() returns (es: seq<Event>, s: State)
    ensures Legal(Init(4), es) && Exec(Init(4), es) == s && GenuineRun(Init(4), es)
    ensures s.th == [Idle, Idle, Idle, WaitToken(false)]
    ensures Waiters(s) == 1 && Tokens(s) == 0 && !Enabled(s, Event(3, Go))
    ensures Leads(s, VainSignal(2), s)
  {
    es := StrandedWaiter();
    s := STRANDED;
    LoneWaiter();
    SignalDoesNothing(s.sh, s.th, 2);
  }
}
