/**
 What the completion signal is worth when submits arrive while workers run. Each worker compares its own
 increment with the value of `queued` that it loaded before its claim (line 215). After a submit the
 completion of the queue is still signalled exactly when no worker that is busy with an item at that
 moment can be outrun by another one that comes around.
 */
module MuleSignal {
  import opened Tally
  import opened MuleModel
  import opened MuleClaims
  import opened MuleInvariant
  import opened MuleStop
  import opened MuleDrain
  import opened MuleWindow

  // ----- on every run

  /** The step is an increment of `processed` that meets the worker's own value of `queued`. */
  function Triggers(s: State, e: Event): nat {
    if e.WorkerStep? && e.t < |s.workers| && s.workers[e.t].Count? &&
       s.pool.processed + 1 == s.workers[e.t].queued
    then 1 else 0
  }

  function Triggered(s: State, es: seq<Event>): nat
    requires Legal(s, es)
    decreases |es|
  {
    if es == [] then 0 else Triggers(s, es[0]) + Triggered(Next(s, es[0]), es[1..])
  }

  /** Signals sent, and those about to be sent. */
  function Signals(s: State): nat { s.pool.log.signals + Sum(s.workers, Signalling) }

  lemma WorkerTriggers(s: State, t: nat)
    requires Enabled(s, WorkerStep(t))
    ensures Signals(Next(s, WorkerStep(t))) == Signals(s) + Triggers(s, WorkerStep(t))
  {
    SumUpdate(s.workers, t, WorkerAct(s.pool, t, s.workers[t]).w, Signalling);
    SumAtLeast(s.workers, t, Signalling);
  }

  lemma ClientTriggers(s: State)
    requires Lifecycle(s) && ClientCan(s) && !Resets(s.client)
    ensures Signals(ClientAct(s)) == Signals(s)
  {
    if ChangesWorkers(s.client) {
      if s.client.i < |s.workers| {
        SumUpdate(s.workers, s.client.i, if s.client.Create? then Starting else Absent, Signalling);
      }
    } else {
      OtherClientStep(s);
    }
  }

  /** Nothing is reset along the schedule. */
  ghost predicate Unreset(s: State, es: seq<Event>)
    requires Legal(s, es)
    decreases |es|
  {
    es != [] ==> (es[0].ClientStep? ==> !Resets(s.client)) && Unreset(Next(s, es[0]), es[1..])
  }

  /**
   On every run without a reset, whatever is submitted when: one signal for each increment of
   `processed` that meets the incrementing worker's own value of `queued`, and no others.
   */
  lemma {:induction false} SignalsAreTriggered(s: State, es: seq<Event>)
    requires Lifecycle(s) && Legal(s, es) && Unreset(s, es)
    ensures Signals(Exec(s, es)) == Signals(s) + Triggered(s, es)
    decreases |es|
  {
    if es != [] {
      StepKeepsLifecycle(s, es[0]);
      if es[0].WorkerStep? {
        WorkerTriggers(s, es[0].t);
      } else if es[0].ClientStep? {
        ClientTriggers(s);
      }
      SignalsAreTriggered(Next(s, es[0]), es[1..]);
    }
  }

  /** The step completes the queue: it makes `processed` meet `queued`. */
  predicate Completes(s: State, e: Event) {
    e.WorkerStep? && e.t < |s.workers| && s.workers[e.t].Count? && s.pool.processed + 1 == s.pool.queued
  }

  // ----- exactly which submits leave the completion signalled

  /** Whoever completes the queue now triggers a signal. */
  ghost predicate PreciseAt(s: State) {
    forall e :: Enabled(s, e) && Completes(s, e) ==> Triggers(s, e) == 1
  }

  /** On every run without further submits, the step that completes the queue triggers a signal. */
  ghost predicate SignalsFrom(s: State) {
    forall es :: Legal(s, es) && UnfedRun(s, es) ==> PreciseAt(Exec(s, es))
  }

  /** Worker `a` is busy with an item, or will claim one if it is next, on the `queued` it has loaded. */
  predicate Working(s: State, a: nat)
    requires a < |s.workers|
  {
    match s.workers[a]
    case Test(q, p) => p == s.pool.processing && p != q
    case Claim(_, p) => p == s.pool.processing
    case Kernel(_, _) => true
    case Count(_) => true
    case _ => false
  }

  /** Worker `a` is busy, and `b` can come around and run what is submitted now before `a` is done. */
  predicate Outrun(s: State, a: nat, b: nat) {
    Beside(s, a, b) && Working(s, a)
  }

  // ----- nobody is outrun: the signal is sent

  /** Worker `t` can still count an item against a value of `queued` that is out of date. */
  predicate Outdated(s: State, t: nat)
    requires t < |s.workers|
  {
    match s.workers[t]
    case LoadProcessing(q) => q != s.pool.queued
    case Test(q, p) => q != s.pool.queued && p == s.pool.processing && p != q
    case Claim(q, p) => q != s.pool.queued && p == s.pool.processing
    case Kernel(q, _) => q != s.pool.queued
    case Count(q) => q != s.pool.queued
    case _ => false
  }

  ghost predicate UpToDate(s: State) {
    forall t :: 0 <= t < |s.workers| ==> !Outdated(s, t)
  }

  /** Something is left to claim, and only worker `c` can claim it. */
  ghost predicate LeftTo(s: State, c: nat) {
    s.pool.processing < s.pool.queued && (|s.workers| == 1 || Lone(s, c))
  }

  ghost predicate Tidy(s: State, c: nat) {
    Reachable(s) && (UpToDate(s) || LeftTo(s, c))
  }

  lemma WorkerStaysUpToDate(s: State, t: nat)
    requires Claimed(s) && UpToDate(s) && Enabled(s, WorkerStep(t))
    ensures UpToDate(Next(s, WorkerStep(t)))
  {
    var s' := Next(s, WorkerStep(t));
    WorkerKeepsSound(s, t, |s.workers| == 1);
    forall u | 0 <= u < |s'.workers|
      ensures !Outdated(s', u)
    {
      assert !Outdated(s, u) && WorkerOk(s.pool, |s.workers| == 1, s.workers[u]);
    }
  }

  lemma ClientStaysUpToDate(s: State)
    requires Claimed(s) && UpToDate(s) && ClientCan(s)
    ensures UpToDate(ClientAct(s))
  {
    var s' := ClientAct(s);
    if !Resets(s.client) {
      assert s'.pool.queued == s.pool.queued && s'.pool.processing == s.pool.processing;
      forall u | 0 <= u < |s'.workers|
        ensures !Outdated(s', u)
      {
        assert !Outdated(s, u);
      }
    }
  }

  /** The last item is claimed by somebody whose value of `queued` is up to date. */
  lemma LastClaimIsUpToDate(s: State, c: nat, t: nat)
    requires Reachable(s) && LeftTo(s, c) && Enabled(s, WorkerStep(t))
    requires Next(s, WorkerStep(t)).pool.processing == s.pool.queued
    ensures UpToDate(Next(s, WorkerStep(t)))
  {
    var s' := Next(s, WorkerStep(t));
    assert WorkerOk(s.pool, |s.workers| == 1, s.workers[t]) && s.workers[t].Claim? && !Committed(s, t);
    forall u | 0 <= u < |s'.workers|
      ensures !Outdated(s', u)
    {
      if |s.workers| > 1 && u != t {
        assert Committed(s, u) && WorkerOk(s.pool, false, s.workers[u]);
      }
    }
  }

  lemma WorkerKeepsLeft(s: State, c: nat, t: nat)
    requires Reachable(s) && LeftTo(s, c) && Enabled(s, WorkerStep(t))
    ensures var s' := Next(s, WorkerStep(t)); UpToDate(s') || LeftTo(s', c)
  {
    var s' := Next(s, WorkerStep(t));
    WorkerKeepsSound(s, t, |s.workers| == 1);
    if s'.pool.processing == s.pool.queued {
      LastClaimIsUpToDate(s, c, t);
    } else if |s.workers| != 1 {
      WorkerKeepsLone(s, c, t);
    }
  }

  lemma ClientKeepsLeft(s: State, c: nat)
    requires Reachable(s) && LeftTo(s, c) && ClientCan(s) && |s.workers| >= 1
    ensures UpToDate(ClientAct(s)) || LeftTo(ClientAct(s), c)
  {
    if !Resets(s.client) && |s.workers| > 1 {
      ClientKeepsLone(s, c);
    }
  }

  /** While others are committed to leave, the client is inside `mule_stop`. */
  lemma LoneIsStopping(s: State, c: nat)
    requires Orderly(s) && Lone(s, c) && |s.workers| > 1
    ensures s.client != Outside
  {
    assert Committed(s, if c == 0 then 1 else 0);
  }

  lemma StepStaysTidy(s: State, c: nat, e: Event)
    requires Tidy(s, c) && |s.workers| >= 1 && Enabled(s, e) && Unfed(s, e)
    ensures Tidy(Next(s, e), c) && |Next(s, e).workers| == |s.workers|
  {
    assert Polite(s, e);
    StepKeepsReachable(s, e);
    if e.WorkerStep? {
      if UpToDate(s) {
        WorkerStaysUpToDate(s, e.t);
      } else {
        WorkerKeepsLeft(s, c, e.t);
      }
    } else if e.ClientStep? {
      if UpToDate(s) {
        ClientStaysUpToDate(s);
      } else {
        ClientKeepsLeft(s, c);
      }
    } else {
      CallStaysTidy(s, c, e);
    }
  }

  lemma CallStaysTidy(s: State, c: nat, e: Event)
    requires Tidy(s, c) && |s.workers| >= 1 && Enabled(s, e)
    requires e.CallStart? || e.CallSync? || e.CallReset? || e.CallStop?
    ensures UpToDate(Next(s, e)) || LeftTo(Next(s, e), c)
  {
    if UpToDate(s) {
      assert forall t :: 0 <= t < |s.workers| ==> Outdated(Next(s, e), t) == Outdated(s, t);
    } else if |s.workers| > 1 {
      LoneIsStopping(s, c);
    }
  }

  lemma TidyIsPrecise(s: State, c: nat)
    requires Tidy(s, c)
    ensures PreciseAt(s)
  {
    forall e | Enabled(s, e) && Completes(s, e)
      ensures Triggers(s, e) == 1
    {
      assert !Storing(s.client);
      SumAtLeast(s.workers, e.t, Busy);
      assert !Outdated(s, e.t);
    }
  }

  lemma {:induction false} TidyRuns(s: State, c: nat, es: seq<Event>)
    requires Tidy(s, c) && |s.workers| >= 1 && Legal(s, es) && UnfedRun(s, es)
    ensures PreciseAt(Exec(s, es))
    decreases |es|
  {
    if es == [] {
      TidyIsPrecise(s, c);
    } else {
      StepStaysTidy(s, c, es[0]);
      TidyRuns(Next(s, es[0]), c, es[1..]);
    }
  }

  lemma SubmitLeavesTidy(s: State, count: nat) returns (c: nat)
    requires Reachable(s) && |s.workers| >= 1 && count > 0 && Polite(s, Submit(count))
    requires forall a, b :: !Outrun(s, a, b)
    ensures Tidy(Next(s, Submit(count)), c)
  {
    var s' := Next(s, Submit(count));
    StepKeepsReachable(s, Submit(count));
    c := 0;
    if |s.workers| > 1 {
      if a :| 0 <= a < |s.workers| && Working(s, a) {
        c := a;
        assert !Outrun(s, a, if a == 0 then 1 else 0);
        assert WorkersOk(s', true);
        forall u | 0 <= u < |s.workers| && u != c
          ensures Committed(s', u) && !s'.workers[u].LoadProcessing?
        {
          assert !Outrun(s, a, u);
          assert Committed(s, u);
        }
      } else {
        forall t | 0 <= t < |s.workers|
          ensures !Outdated(s', t)
        {
          assert !Working(s, t);
        }
      }
    }
  }

  // ----- somebody is outrun: the queue is completed in silence

  /** Worker `a` goes on to its increment, with the item that it has or is about to claim. */
  lemma GoesToCount(s0: State, es: seq<Event>, s: State, a: nat) returns (es': seq<Event>, s': State)
    requires Leads(s0, es, s) && a < |s.workers| && Working(s, a)
    ensures Extends(es, es') && Leads(s0, es', s') && s'.client == s.client
    ensures s'.pool.queued == s.pool.queued && s'.pool.running == s.pool.running
    ensures s'.workers == s.workers[a := Count(s.workers[a].queued)]
  {
    es', s' := es, s;
    var q := s.workers[a].queued;
    if s'.workers[a].Test? {
      es', s' := Works(s0, es', s', a, WorkerAct(s'.pool, a, s'.workers[a]));
    }
    if s'.workers[a].Claim? {
      es', s' := Works(s0, es', s', a, WorkerAct(s'.pool, a, s'.workers[a]));
    }
    if s'.workers[a].Kernel? {
      es', s' := Works(s0, es', s', a, WorkerAct(s'.pool, a, s'.workers[a]));
    }
    assert s'.workers == s.workers[a := Count(q)];
  }

  /** Workers from `i` on, other than `a`, finish the items that they have. */
  lemma {:induction false} OthersFinish(s0: State, es: seq<Event>, s: State, a: nat, i: nat)
      returns (es': seq<Event>, s': State)
    requires Leads(s0, es, s) && a < |s.workers| && i <= |s.workers|
    requires forall t :: 0 <= t < i && t != a ==> Busy(s.workers[t]) == 0
    ensures Extends(es, es') && Leads(s0, es', s') && s'.client == s.client && s'.pool.queued == s.pool.queued
    ensures |s'.workers| == |s.workers| && s'.workers[a] == s.workers[a]
    ensures s'.pool.processing == s.pool.processing
    ensures forall t :: 0 <= t < |s'.workers| && t != a ==> Busy(s'.workers[t]) == 0
    decreases |s.workers| - i
  {
    es', s' := es, s;
    if i < |s.workers| {
      if i != a && s'.workers[i].Kernel? {
        es', s' := Works(s0, es', s', i, WorkerAct(s'.pool, i, s'.workers[i]));
      }
      if i != a && s'.workers[i].Count? {
        es', s' := Works(s0, es', s', i, WorkerAct(s'.pool, i, s'.workers[i]));
      }
      es', s' := OthersFinish(s0, es', s', a, i + 1);
    }
  }

  lemma {:induction false} InternalIsUnfed(s: State, es: seq<Event>)
    requires Legal(s, es) && Extends([], es)
    ensures UnfedRun(s, es)
    decreases |es|
  {
    if es != [] {
      assert Internal(es[0]);
      assert forall i :: 0 <= i < |es[1..]| ==> es[1..][i] == es[i + 1];
      InternalIsUnfed(Next(s, es[0]), es[1..]);
    }
  }

  lemma SetsOut(s: State, a: nat, b: nat) returns (es: seq<Event>, z: State)
    requires Reachable(s) && Outrun(s, a, b) && WindowClosed(s)
    ensures Leads(s, es, z) && Extends([], es) && Driven(z, a, b) && z.pool.queued == s.pool.queued
    ensures |z.workers| == |s.workers| && z.workers[a] == Count(s.workers[a].queued)
  {
    assert Leads(s, [], s);
    es, z := GoesToCount(s, [], s, a);
    InternalIsUnfed(s, es);
    UnfedIsPolite(s, es);
    RunKeepsReachable(s, es);
    assert s.workers[b] == z.workers[b] && WorkerOk(z.pool, false, z.workers[b]);
  }

  /** Busy on an old value of `queued`, worker `a` stays behind while `b` comes around and claims the rest. */
  lemma StaysBehind(s: State, a: nat, b: nat) returns (es: seq<Event>, z: State)
    requires Reachable(s) && Outrun(s, a, b) && WindowClosed(s)
    ensures Leads(s, es, z) && Extends([], es) && z.pool.processing == z.pool.queued == s.pool.queued
    ensures |z.workers| == |s.workers| && z.workers[a] == Count(s.workers[a].queued)
    ensures forall t :: 0 <= t < |z.workers| && t != a ==> Busy(z.workers[t]) == 0
  {
    es, z := SetsOut(s, a, b);
    es, z := ReachesTop(s, es, z, a, b);
    es, z := ClaimsAll(s, es, z, b);
    es, z := OthersFinish(s, es, z, a, 0);
  }

  lemma OutrunIsSilent(s: State, a: nat, b: nat, count: nat) returns (es: seq<Event>)
    requires Reachable(s) && count > 0 && Polite(s, Submit(count)) && Outrun(s, a, b)
    ensures var s' := Next(s, Submit(count));
            Legal(s', es) && UnfedRun(s', es) && !PreciseAt(Exec(s', es))
  {
    var s', z := Next(s, Submit(count)), s;
    StepKeepsReachable(s, Submit(count));
    assert WorkerOk(s.pool, false, s.workers[a]);
    es, z := StaysBehind(s', a, b);
    InternalIsUnfed(s', es);
    UnfedIsPolite(s', es);
    RunKeepsReachable(s', es);
    SumOnly(z.workers, a, Busy);
    assert Enabled(z, WorkerStep(a)) && Completes(z, WorkerStep(a)) && Triggers(z, WorkerStep(a)) == 0;
  }

  /**
   In a pool of any size and whatever the workers and the client are doing, a submit outside the window
   leaves the completion of the queue signalled on every run without further submits if and only if no
   worker that is busy when it lands can be outrun.
   */
  lemma SubmitIsSignalledExactly(s: State, count: nat)
    requires Reachable(s) && count > 0 && Polite(s, Submit(count))
    ensures SignalsFrom(Next(s, Submit(count))) <==> forall a, b :: !Outrun(s, a, b)
  {
    var s' := Next(s, Submit(count));
    if a, b :| Outrun(s, a, b) {
      var es := OutrunIsSilent(s, a, b, count);
    } else {
      forall es | Legal(s', es) && UnfedRun(s', es)
        ensures PreciseAt(Exec(s', es))
      {
        if |s.workers| == 0 {
          StepKeepsReachable(s, Submit(count));
          UnfedIsPolite(s', es);
          RunKeepsReachable(s', es);
        } else {
          var c := SubmitLeavesTidy(s, count);
          TidyRuns(s', c, es);
        }
      }
    }
  }

  /**
   As long as no stop has begun, that means: in a pool of several workers a submit outside the window
   leaves the completion signalled if and only if it finds no worker busy.
   */
  lemma SubmitIsSignalledExactlyWhenIdle(s: State, count: nat)
    requires Reachable(s) && count > 0 && Polite(s, Submit(count)) && |s.workers| > 1 && !Ending(s)
    ensures SignalsFrom(Next(s, Submit(count))) <==> forall a :: 0 <= a < |s.workers| ==> !Working(s, a)
  {
    SubmitIsSignalledExactly(s, count);
    if a :| 0 <= a < |s.workers| && Working(s, a) {
      assert Outrun(s, a, if a == 0 then 1 else 0);
    }
  }

  // ----- a completion that is never signalled

  /** The schedule `es` leads from `s0` to `s`, and every submit in it keeps out of the window. */
  ghost predicate LeadsPolitely(s0: State, es: seq<Event>, s: State) {
    Leads(s0, es, s) && PoliteRun(s0, es)
  }

  lemma {:induction false} PoliteOn(s: State, es: seq<Event>, e: Event)
    requires Legal(s, es) && PoliteRun(s, es) && Enabled(Exec(s, es), e) && Polite(Exec(s, es), e)
    ensures LeadsPolitely(s, es + [e], Next(Exec(s, es), e))
    decreases |es|
  {
    ExecAppend(s, es, e);
    if es == [] {
      assert [e][1..] == [];
      assert PoliteRun(Next(s, e), []);
    } else {
      assert (es + [e])[1..] == es[1..] + [e];
      PoliteOn(Next(s, es[0]), es[1..], e);
    }
  }

  /** Worker `t` makes one step. */
  lemma Step(s0: State, es: seq<Event>, s: State, t: nat, a: After) returns (es': seq<Event>, s': State)
    requires LeadsPolitely(s0, es, s) && t < |s.workers| && WorkerCan(s.pool, s.workers[t])
    requires WorkerAct(s.pool, t, s.workers[t]) == a
    ensures LeadsPolitely(s0, es', s') && s' == s.(pool := a.pool, workers := s.workers[t := a.w])
  {
    PoliteOn(s0, es, WorkerStep(t));
    es' := es + [WorkerStep(t)];
    s' := s.(pool := a.pool, workers := s.workers[t := a.w]);
  }

  /** From the top of its loop worker `t` claims the next item. */
  lemma Claims(s0: State, es: seq<Event>, s: State, t: nat) returns (es': seq<Event>, s': State)
    requires LeadsPolitely(s0, es, s) && t < |s.workers| && s.workers[t] == LoadQueued
    requires s.pool.processing < s.pool.queued
    ensures LeadsPolitely(s0, es', s') && s'.client == s.client
    ensures s'.workers == s.workers[t := Kernel(s.pool.queued, s.pool.processing + 1)]
    ensures s'.pool.queued == s.pool.queued && s'.pool.processing == s.pool.processing + 1
    ensures s'.pool.processed == s.pool.processed && s'.pool.log.signals == s.pool.log.signals
  {
    var q, p := s.pool.queued, s.pool.processing;
    es', s' := Step(s0, es, s, t, After(s.pool, LoadProcessing(q)));
    es', s' := Step(s0, es', s', t, After(s.pool, Test(q, p)));
    es', s' := Step(s0, es', s', t, After(s.pool, Claim(q, p)));
    es', s' := Step(s0, es', s', t, WorkerAct(s.pool, t, Claim(q, p)));
    assert s'.workers == s.workers[t := Kernel(q, p + 1)];
  }

  /** Worker `t` runs its item, counts it and does not find it the last. */
  lemma Finishes(s0: State, es: seq<Event>, s: State, t: nat) returns (es': seq<Event>, s': State)
    requires LeadsPolitely(s0, es, s) && t < |s.workers| && s.workers[t].Kernel?
    requires s.pool.processed + 1 != s.workers[t].queued
    ensures LeadsPolitely(s0, es', s') && s'.client == s.client && s'.workers == s.workers[t := LoadQueued]
    ensures s'.pool.queued == s.pool.queued && s'.pool.processed == s.pool.processed + 1
    ensures s'.pool.processing == s.pool.processing && s'.pool.log.signals == s.pool.log.signals
  {
    var w, ws := s.workers[t], s.workers;
    es', s' := Step(s0, es, s, t, WorkerAct(s.pool, t, w));
    es', s' := Step(s0, es', s', t, WorkerAct(s'.pool, t, Count(w.queued)));
    es', s' := Step(s0, es', s', t, WorkerAct(s'.pool, t, CheckLast(w.queued, s.pool.processed)));
    assert s'.workers == ws[t := LoadQueued];
  }

  /** One item is submitted outside the window. */
  lemma SubmitsOne(s0: State, es: seq<Event>, s: State) returns (es': seq<Event>, s': State)
    requires LeadsPolitely(s0, es, s) && WindowClosed(s) && !Resetting(s.client)
    ensures LeadsPolitely(s0, es', s') && s' == s.(pool := s.pool.(queued := s.pool.queued + 1))
  {
    PoliteOn(s0, es, Submit(1));
    es' := es + [Submit(1)];
    s' := s.(pool := s.pool.(queued := s.pool.queued + 1));
  }

  /**
   Two workers and two submits outside the window: the second lands while the first item is in the
   kernel, its item is finished first, and the worker that completes the queue compares with 1. All
   items are done, and no signal has been sent or ever will be for them.
   */
  lemma CompletionUnsignalled() returns (es: seq<Event>, s: State)
    ensures Legal(Init(2), es) && PoliteRun(Init(2), es) && Exec(Init(2), es) == s
    ensures s.pool.queued == s.pool.processing == s.pool.processed == 2
    ensures s.workers == [LoadQueued, LoadQueued] && Signals(s) == 0
  {
    es, s := TwoAtTop();
    HarmlessIsPolite(Init(2), es);
    es, s := SubmitsOne(Init(2), es, s);
    es, s := Claims(Init(2), es, s, 0);
    es, s := SubmitsOne(Init(2), es, s);
    es, s := Claims(Init(2), es, s, 1);
    es, s := Finishes(Init(2), es, s, 1);
    es, s := Finishes(Init(2), es, s, 0);
    assert s.workers == [LoadQueued, LoadQueued];
    SumZero(s.workers, Signalling);
  }
}
