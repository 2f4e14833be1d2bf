/**
 What `cnd_wait` and `cnd_timedwait` answer: however the threads interleave, a call that has returned
 has waited for a token exactly once, and it answers `thrd_busy` if and only if that wait timed out
 (section 7.26.3.5 of ISO/IEC 9899:2011 calls it `thrd_timedout`).
 */
module CondVarAnswers {
  import opened CondVarModel
  import opened CondVarWakeups

  /** `thrd_success` and `thrd_busy` (262). */
  datatype Answer = Success | Busy

  /** How thread `t` fares at line 226 along a schedule. */
  function Outcomes(s: State, es: seq<Event>, t: nat): seq<Wake>
    requires Legal(s, es)
    decreases |es|
  {
    if es == [] then []
    else
      var e := es[0];
      (if e.t == t && s.th[t].WaitToken? then [if e.c == TimeOut then TimedOut else Token] else []) +
      Outcomes(Next(s, e), es[1..], t)
  }

  /** What calls of thread `t` answer along a schedule: at line 262, after taking the mutex again. */
  function Answers(s: State, es: seq<Event>, t: nat): seq<Answer>
    requires Legal(s, es)
    decreases |es|
  {
    if es == [] then []
    else
      var e := es[0];
      (if e.t == t && s.th[t].WaitRelock? then [if s.th[t].wake == TimedOut then Busy else Success] else []) +
      Answers(Next(s, e), es[1..], t)
  }

  /** The thread is past its wait for a token, which ended with `k`. */
  predicate Remembers(p: Pc, k: Wake) {
    && (InCount(p) || InFold(p) || InClose(p))
    && (if p.LateTest? || p.LateTakeBlocked? || p.LateAddGone? then k == TimedOut else p.wake == k)
  }

  lemma ArrivalStep(s: Shared, t: nat, p: Pc, c: Choice)
    requires InArrival(p) && CanAct(s, p, c)
    ensures var p' := Act(s, t, p, c).p;
      if p.WaitToken? then Remembers(p', if c == TimeOut then TimedOut else Token)
      else InArrival(p') && p'.timed == p.timed
    ensures p.WaitToken? && !p.timed ==> c != TimeOut
  {
  }

  lemma CountOrFoldStep(s: Shared, t: nat, p: Pc, k: Wake)
    requires (InCount(p) || InFold(p)) && Remembers(p, k) && CanAct(s, p, Go)
    ensures Remembers(Act(s, t, p, Go).p, k)
  {
  }

  lemma CloseAnswers(s: Shared, t: nat, p: Pc, k: Wake)
    requires InClose(p) && Remembers(p, k) && CanAct(s, p, Go)
    ensures var p' := Act(s, t, p, Go).p; if p.WaitRelock? then p'.Idle? else Remembers(p', k)
  {
  }

  /** From the wait for a token on. */
  lemma {:induction false} RemembersUntilReturn(s: State, es: seq<Event>, t: nat, k: Wake)
    requires t < |s.th| && Legal(s, es) && NoCallBy(t, es) && (Remembers(s.th[t], k) || s.th[t].Idle?)
    ensures t < |Exec(s, es).th| && Outcomes(s, es, t) == []
    ensures var p := Exec(s, es).th[t];
      if s.th[t].Idle? then p.Idle? && Answers(s, es, t) == []
      else if p.Idle? then Answers(s, es, t) == [if k == TimedOut then Busy else Success]
      else Remembers(p, k) && Answers(s, es, t) == []
    decreases |es|
  {
    if es != [] {
      var e, s' := es[0], Next(s, es[0]);
      assert e in es && forall x :: x in es[1..] ==> x in es;
      if e.t == t {
        if InClose(s.th[t]) {
          CloseAnswers(s.sh, t, s.th[t], k);
        } else {
          CountOrFoldStep(s.sh, t, s.th[t], k);
        }
      }
      RemembersUntilReturn(s', es[1..], t, k);
    }
  }

  /**
   A waiting call, on any schedule: until it has waited for a token it has no outcome and no answer; when
   it has returned it has one of each, and it answers busy if and only if it timed out. An untimed wait
   never does.
   */
  lemma {:induction false} WaitAnswersTruly(s: State, es: seq<Event>, t: nat)
    requires t < |s.th| && Legal(s, es) && NoCallBy(t, es) && InArrival(s.th[t])
    ensures t < |Exec(s, es).th|
    ensures var p, os, answers := Exec(s, es).th[t], Outcomes(s, es, t), Answers(s, es, t);
      && (InArrival(p) <==> os == [])
      && (p.Idle? ==> |os| == 1 && answers == [if os == [TimedOut] then Busy else Success])
      && (!p.Idle? ==> answers == [])
      && (!s.th[t].timed ==> os == [] || os == [Token])
    decreases |es|
  {
    if es != [] {
      var e, s' := es[0], Next(s, es[0]);
      assert e in es && forall x :: x in es[1..] ==> x in es;
      if e.t == t {
        ArrivalStep(s.sh, t, s.th[t], e.c);
      }
      if e.t == t && s.th[t].WaitToken? {
        var k := if e.c == TimeOut then TimedOut else Token;
        RemembersUntilReturn(s', es[1..], t, k);
        assert Outcomes(s, es, t) == [k] && Answers(s, es, t) == Answers(s', es[1..], t);
      } else {
        WaitAnswersTruly(s', es[1..], t);
        assert Outcomes(s, es, t) == Outcomes(s', es[1..], t);
        assert Answers(s, es, t) == Answers(s', es[1..], t);
      }
    }
  }
}
