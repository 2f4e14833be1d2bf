/**
 `call_once` on one flag by any number of threads (threads_win32.h 301-321): section 7.26.2.1 of
 ISO/IEC 9899:2011 asks that the function run once and that every call return after it has.
 */
module OnceFlag {
  import opened Tally

  datatype Pc =
    | Outside
    | Exchange      // 311
    | Func          // 312, inside the function
    | Publish       // 313
    | Spin          // 315

  /** The flag, how often the function was entered and left, and how many calls have returned. */
  datatype Flag = Flag(status: int, entered: nat, left: nat, returned: nat)

  datatype State = State(flag: Flag, th: seq<Pc>)

  datatype After = After(flag: Flag, p: Pc)

  /** `ONCE_FLAG_INIT` (87). */
  function Init(n: nat): State {
    State(Flag(0, 0, 0, 0), seq(n, _ => Outside))
  }

  /** One step of a thread; from outside it enters `call_once`. */
  function Act(f: Flag, p: Pc): After {
    match p
    case Outside => After(f, Exchange)
    case Exchange =>
      if f.status == 0 then After(f.(status := 1, entered := f.entered + 1), Func) else After(f, Spin)
    case Func => After(f.(left := f.left + 1), Publish)
    case Publish => After(f.(status := 2, returned := f.returned + 1), Outside)
    case Spin => if f.status == 1 then After(f, Spin) else After(f.(returned := f.returned + 1), Outside)
  }

  function Next(s: State, t: nat): State
    requires t < |s.th|
  {
    var a := Act(s.flag, s.th[t]);
    State(a.flag, s.th[t := a.p])
  }

  function Exec(s: State, ts: seq<nat>): State
    requires forall t :: t in ts ==> t < |s.th|
    decreases |ts|
  {
    if ts == [] then s
    else
      assert ts[0] in ts && forall t :: t in ts[1..] ==> t in ts;
      Exec(Next(s, ts[0]), ts[1..])
  }

  function InFunc(p: Pc): nat { if p.Func? then 1 else 0 }
  function Runner(p: Pc): nat { if p.Func? || p.Publish? then 1 else 0 }

  /** The status says how far the one execution has come. */
  ghost predicate Once(s: State) {
    && 0 <= s.flag.status <= 2
    && s.flag.entered == (if s.flag.status == 0 then 0 else 1)
    && Sum(s.th, Runner) == (if s.flag.status == 1 then 1 else 0)
    && s.flag.left + Sum(s.th, InFunc) == s.flag.entered
    && (s.flag.returned > 0 ==> s.flag.status == 2)
    && forall t :: 0 <= t < |s.th| && s.th[t].Spin? ==> s.flag.status >= 1
  }

  lemma InitOnce(n: nat)
    ensures Once(Init(n))
  {
    SumZero(Init(n).th, Runner);
    SumZero(Init(n).th, InFunc);
  }

  /** The step of thread `t` ends a call. */
  predicate Ends(s: State, t: nat)
    requires t < |s.th|
  {
    !s.th[t].Outside? && Next(s, t).th[t].Outside?
  }

  /**
   Each step keeps the invariant and moves the status only 0 to 1 to 2; a call returns only after the
   function has finished, and whoever finds it running waits where it is.
   */
  lemma StepKeepsOnce(s: State, t: nat)
    requires Once(s) && t < |s.th|
    ensures var s' := Next(s, t);
      && Once(s')
      && (s'.flag.status == s.flag.status || s'.flag.status == s.flag.status + 1)
      && s'.flag.entered <= 1
      && s'.flag.returned == s.flag.returned + (if Ends(s, t) then 1 else 0)
      && (Ends(s, t) ==> s.flag.left == 1)
      && (s.th[t].Spin? && s.flag.status == 1 ==> s' == s)
      && (s.th[t].Outside? ==> !s'.th[t].Outside? && s'.flag == s.flag)
  {
    var p := Act(s.flag, s.th[t]).p;
    SumUpdate(s.th, t, p, Runner);
    SumUpdate(s.th, t, p, InFunc);
    SumAtLeast(s.th, t, Runner);
    SumAtLeast(s.th, t, InFunc);
    SumMonotone(s.th, InFunc, Runner);
    SumMonotone(s.th[t := p], InFunc, Runner);
  }

  /**
   On every run the function is entered at most once, and once any call has returned the function
   has been entered and left exactly once and nobody is inside it.
   */
  lemma {:induction false} RunsOnce(s: State, ts: seq<nat>)
    requires Once(s) && forall t :: t in ts ==> t < |s.th|
    ensures var z := Exec(s, ts);
      && Once(z) && z.flag.entered <= 1
      && (z.flag.returned > 0 ==> z.flag.entered == z.flag.left == 1 && Sum(z.th, InFunc) == 0)
    decreases |ts|
  {
    if ts == [] {
      SumMonotone(s.th, InFunc, Runner);
    } else {
      assert ts[0] in ts;
      assert forall t :: t in ts[1..] ==> t in ts;
      StepKeepsOnce(s, ts[0]);
      RunsOnce(Next(s, ts[0]), ts[1..]);
    }
  }

  /** Nobody spins in vain: while the status is 1 there is a thread whose steps lead to 2. */
  lemma SpinnersHaveRunner(s: State) returns (t: nat)
    requires Once(s) && s.flag.status == 1
    ensures t < |s.th| && Runner(s.th[t]) == 1
    ensures s.th[t].Publish? ==> Next(s, t).flag.status == 2
    ensures s.th[t].Func? ==> Next(s, t).th[t].Publish? && Next(Next(s, t), t).flag.status == 2
  {
    t := SumWitness(s.th, Runner);
  }

  // ----- every call ends

  /** Steps of its own after which a call at `p` has returned, once nobody has to be waited for. */
  function ToReturn(p: Pc): nat {
    match p
    case Outside => 0
    case Exchange => 2
    case Func => 2
    case Publish => 1
    case Spin => 1
  }

  /** How often thread `t` steps. */
  function Own(ts: seq<nat>, t: nat): nat {
    if ts == [] then 0 else (if ts[0] == t then 1 else 0) + Own(ts[1..], t)
  }

  lemma OwnSteps(t: nat)
    ensures Own([t], t) == 1 && Own([t, t], t) == 2
  {
    assert [t][1..] == [] && [t, t][1..] == [t];
  }

  predicate InTable(s: State, ts: seq<nat>) {
    forall t :: t in ts ==> t < |s.th|
  }

  /** Who runs the function comes back and sets the status to 2, whatever the others do meanwhile. */
  lemma {:induction false} RunnerReturns(s: State, ts: seq<nat>, r: nat)
    requires Once(s) && r < |s.th| && Runner(s.th[r]) == 1
    requires InTable(s, ts) && Own(ts, r) == ToReturn(s.th[r])
    ensures var z := Exec(s, ts);
      r < |z.th| && z.th[r].Outside? && z.flag.status == 2 && z.flag.returned > s.flag.returned
    decreases |ts|
  {
    SumAtLeast(s.th, r, Runner);
    assert ts[0] in ts && forall t :: t in ts[1..] ==> t in ts;
    var s' := Next(s, ts[0]);
    StepKeepsOnce(s, ts[0]);
    if ts[0] == r && s.th[r].Publish? {
      StaysPublished(s', ts[1..]);
      StaysOutside(s', ts[1..], r);
    } else {
      RunnerReturns(s', ts[1..], r);
    }
  }

  /** The status stays 2, and calls only return. */
  lemma {:induction false} StaysPublished(s: State, ts: seq<nat>)
    requires Once(s) && s.flag.status == 2 && InTable(s, ts)
    ensures var z := Exec(s, ts); Once(z) && z.flag.status == 2 && z.flag.returned >= s.flag.returned
    decreases |ts|
  {
    if ts != [] {
      assert ts[0] in ts && forall t :: t in ts[1..] ==> t in ts;
      StepKeepsOnce(s, ts[0]);
      StaysPublished(Next(s, ts[0]), ts[1..]);
    }
  }

  lemma {:induction false} StaysOutside(s: State, ts: seq<nat>, t: nat)
    requires t < |s.th| && s.th[t].Outside? && InTable(s, ts) && Own(ts, t) == 0
    ensures t < |Exec(s, ts).th| && Exec(s, ts).th[t].Outside?
    decreases |ts|
  {
    if ts != [] {
      assert ts[0] in ts && forall u :: u in ts[1..] ==> u in ts;
      StaysOutside(Next(s, ts[0]), ts[1..], t);
    }
  }

  /** Once the status is 2 a call returns after at most two steps of its own, whatever the others do meanwhile. */
  lemma {:induction false} CallReturns(s: State, ts: seq<nat>, t: nat)
    requires Once(s) && s.flag.status == 2 && t < |s.th| && (s.th[t].Exchange? || s.th[t].Spin?)
    requires InTable(s, ts) && Own(ts, t) == ToReturn(s.th[t])
    ensures var z := Exec(s, ts);
      t < |z.th| && z.th[t].Outside? && z.flag.returned > s.flag.returned
    decreases |ts|
  {
    assert ts[0] in ts && forall u :: u in ts[1..] ==> u in ts;
    var s' := Next(s, ts[0]);
    StepKeepsOnce(s, ts[0]);
    if ts[0] == t && s.th[t].Spin? {
      StaysPublished(s', ts[1..]);
      StaysOutside(s', ts[1..], t);
    } else {
      CallReturns(s', ts[1..], t);
    }
  }

  /** Alone, such a call counts as one more return and changes nothing else. */
  lemma LateCallReturns(s: State, t: nat)
    requires Once(s) && s.flag.status == 2 && t < |s.th| && s.th[t].Exchange?
    ensures Next(Next(s, t), t) == State(s.flag.(returned := s.flag.returned + 1), s.th[t := Outside])
  {
    assert s.th[t := Spin][t := Outside] == s.th[t := Outside];
  }

  /** The first call, undisturbed, runs the function once and returns. */
  lemma FirstCallRuns(n: nat, t: nat)
    requires t < n
    ensures Exec(Init(n), [t, t, t, t]) == State(Flag(2, 1, 1, 1), Init(n).th)
  {
    var s := Init(n);
    var s1 := State(s.flag, s.th[t := Exchange]);
    var s2 := State(Flag(1, 1, 0, 0), s.th[t := Func]);
    var s3 := State(Flag(1, 1, 1, 0), s.th[t := Publish]);
    var z := State(Flag(2, 1, 1, 1), s.th);
    assert [t, t, t, t][1..] == [t, t, t] && [t, t, t][1..] == [t, t] && [t, t][1..] == [t] && [t][1..] == [];
    assert Next(s, t) == s1 && Next(s1, t) == s2 && Next(s2, t) == s3 && Next(s3, t) == z;
    assert Exec(z, []) == z && Exec(s3, [t]) == z && Exec(s2, [t, t]) == z && Exec(s1, [t, t, t]) == z;
  }

  /** Every call can end: the thread that runs the function, if any, and then the caller need a few steps. */
  lemma EveryCallEnds(s: State, t: nat) returns (ts: seq<nat>)
    requires Once(s) && t < |s.th| && !s.th[t].Outside?
    ensures |ts| <= 4 && InTable(s, ts) && t < |Exec(s, ts).th| && Exec(s, ts).th[t].Outside?
    ensures Exec(s, ts).flag.returned > s.flag.returned
  {
    OwnSteps(t);
    if s.flag.status == 1 {
      var r := SumWitness(s.th, Runner);
      if r == t {
        ts := if s.th[t].Func? then [t, t] else [t];
        RunnerReturns(s, ts, t);
      } else {
        ts := EndsAfter(s, r, t);
      }
    } else if s.flag.status == 0 {
      SumAtLeast(s.th, t, Runner);
      StepKeepsOnce(s, t);
      RunnerReturns(Next(s, t), [t, t], t);
      ts := [t, t, t];
      assert ts[1..] == [t, t];
    } else {
      SumAtLeast(s.th, t, Runner);
      ts := if s.th[t].Exchange? then [t, t] else [t];
      CallReturns(s, ts, t);
    }
  }

  lemma EndsAfter(s: State, r: nat, t: nat) returns (ts: seq<nat>)
    requires Once(s) && s.flag.status == 1 && r < |s.th| && Runner(s.th[r]) == 1
    requires t < |s.th| && t != r && !s.th[t].Outside?
    ensures |ts| <= 4 && InTable(s, ts) && t < |Exec(s, ts).th| && Exec(s, ts).th[t].Outside?
    ensures Exec(s, ts).flag.returned > s.flag.returned
  {
    OwnSteps(t);
    SumAtLeastPair(s.th, r, t, Runner);
    var own := if s.th[t].Exchange? then [t, t] else [t];
    StepKeepsOnce(s, r);
    var s1 := Next(s, r);
    if s.th[r].Publish? {
      CallReturns(s1, own, t);
      ts := [r] + own;
      assert ts[1..] == own;
    } else {
      StepKeepsOnce(s1, r);
      CallReturns(Next(s1, r), own, t);
      ts := [r, r] + own;
      assert ts[1..] == [r] + own && ts[1..][1..] == own;
    }
  }

  /** The flag as an object; threads run `call_once` on it one operation at a time. */
  class SharedFlag {
    var status: int
    var threads: seq<Pc>
    ghost var entered: nat
    ghost var left: nat
    ghost var returned: nat

    ghost function Snapshot(): State
      reads this
    {
      State(Flag(status, entered, left, returned), threads)
    }

    constructor (n: nat)
      ensures Snapshot() == Init(n) && Once(Snapshot())
    {
      status, entered, left, returned := 0, 0, 0, 0;
      threads := seq(n, _ => Outside);
      new;
      InitOnce(n);
    }

    /** `InterlockedCompareExchange`: returns the value found. */
    method CompareExchange(desired: int, expected: int) returns (found: int)
      modifies this`status
      ensures found == old(status) && status == if found == expected then desired else found
    {
      found := status;
      if found == expected {
        status := desired;
      }
    }

    method Step(t: nat)
      requires t < |threads| && Once(Snapshot())
      modifies this
      ensures Snapshot() == Next(old(Snapshot()), t) && Once(Snapshot())
    {
      StepKeepsOnce(Snapshot(), t);
      var p := threads[t];
      match p {
        case Outside =>
          p := Exchange;
        case Exchange =>
          var found := CompareExchange(1, 0);
          if found == 0 {
            entered := entered + 1;
            p := Func;
          } else {
            p := Spin;
          }
        case Func =>
          left := left + 1;
          p := Publish;
        case Publish =>
          status := 2;
          returned := returned + 1;
          p := Outside;
        case Spin =>
          if status != 1 {
            returned := returned + 1;
            p := Outside;
          }
      }
      threads := threads[t := p];
    }
  }
}
