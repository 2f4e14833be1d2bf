/**
 Why submits must keep out of a worker's two loads: line 175 tests `==` and not `<`, so a worker that
 another one has overtaken claims an item that was never submitted. A submit is safe exactly when no
 worker is between its loads, or the pool is being stopped and nobody is left who could overtake.
 */
module MuleWindow {
  import opened Basics
  import opened MuleModel
  import opened MuleClaims
  import opened MuleInvariant
  import opened MuleDrain

  /** `running` is 0, or `mule_stop` has the mutex and is about to make it 0. */
  predicate Ending(s: State) {
    !s.pool.running || s.client.StopCheck? || s.client.StopClear?
  }

  /** Worker `b` can still come around to load `queued` again. */
  predicate CanReturn(s: State, b: nat)
    requires b < |s.workers|
  {
    Ending(s) ==> !Committed(s, b)
  }

  /** Beside worker `a` there is a worker `b` that can still come around. */
  predicate Beside(s: State, a: nat, b: nat) {
    a < |s.workers| && b < |s.workers| && a != b && CanReturn(s, b)
  }

  /** Worker `a` is between its loads, and `b` can come around and overtake it. */
  predicate Overtakable(s: State, a: nat, b: nat) {
    Beside(s, a, b) && s.workers[a].LoadProcessing?
  }

  /** Whatever polite schedule follows from `s`, no item beyond `queued` is ever claimed. */
  ghost predicate SafeFrom(s: State) {
    forall es :: Legal(s, es) && PoliteRun(s, es) ==> Exec(s, es).pool.processing <= Exec(s, es).pool.queued ||
                                                      Storing(Exec(s, es).client)
  }

  // ----- when nobody can overtake

  /**
   The pool is ending and every worker but `c` is committed to leave. If `c` is nobody, workers may
   stand between their loads: nobody advances `processing` any more.
   */
  ghost predicate Lone(s: State, c: nat) {
    && Sound(s, true) && Ending(s)
    && forall t :: 0 <= t < |s.workers| && t != c ==>
         Committed(s, t) && (s.workers[t].LoadProcessing? ==> c >= |s.workers|)
  }

  lemma WorkerKeepsLone(s: State, c: nat, t: nat)
    requires Orderly(s) && Lone(s, c) && Enabled(s, WorkerStep(t))
    ensures Lone(Next(s, WorkerStep(t)), c)
  {
    var s' := Next(s, WorkerStep(t));
    assert t != c ==> Committed(s, t);
    WorkerKeepsSound(s, t, true);
    forall u | 0 <= u < |s'.workers| && u != c
      ensures Committed(s', u) && (s'.workers[u].LoadProcessing? ==> c >= |s.workers|)
    {
      assert Committed(s, u);
    }
  }

  lemma ClientKeepsLone(s: State, c: nat)
    requires Orderly(s) && Lone(s, c) && ClientCan(s) && |s.workers| > 1
    ensures Lone(ClientAct(s), c) || (Claimed(ClientAct(s)) && AllAbsent(ClientAct(s)))
  {
    var s' := ClientAct(s);
    ClientKeepsSound(s, true);
    var t := if c == 0 then 1 else 0;
    assert Committed(s, t);
    if s.client.Join? && s'.client == Outside {
      assert WorkersOk(s', false);
    } else {
      forall u | 0 <= u < |s'.workers| && u != c
        ensures Committed(s', u) && (s'.workers[u].LoadProcessing? ==> c >= |s.workers|)
      {
        assert Committed(s, u);
      }
    }
  }

  lemma StepKeepsLone(s: State, c: nat, e: Event)
    requires Orderly(s) && Lone(s, c) && |s.workers| > 1 && Enabled(s, e) && Polite(s, e)
    ensures Lone(Next(s, e), c) || Claimed(Next(s, e))
  {
    var t := if c == 0 then 1 else 0;
    assert Committed(s, t);
    if e.WorkerStep? {
      WorkerKeepsLone(s, c, e.t);
    } else if e.ClientStep? {
      ClientKeepsLone(s, c);
    } else if e.Submit? {
      SubmitKeepsSound(s, e.count, true);
      assert forall u :: 0 <= u < |s.workers| && u != c ==> Committed(Next(s, e), u) == Committed(s, u);
    }
  }

  lemma {:induction false} LoneIsSafe(s: State, c: nat, es: seq<Event>)
    requires Orderly(s) && Lone(s, c) && |s.workers| > 1 && Legal(s, es) && PoliteRun(s, es)
    ensures Exec(s, es).pool.processing <= Exec(s, es).pool.queued || Storing(Exec(s, es).client)
    decreases |es|
  {
    if es != [] {
      StepKeepsLone(s, c, es[0]);
      StepKeepsOrder(s, es[0]);
      if Claimed(Next(s, es[0])) {
        RunKeepsClaimed(Next(s, es[0]), es[1..]);
      } else {
        LoneIsSafe(Next(s, es[0]), c, es[1..]);
      }
    }
  }

  /** A submit that nobody can turn into an overtaking is safe. */
  lemma NotOvertakableIsSafe(s: State, count: nat)
    requires Orderly(s) && Claimed(s) && !Resetting(s.client)
    requires forall a, b :: !Overtakable(s, a, b)
    ensures SafeFrom(Next(s, Submit(count)))
  {
    var s' := Next(s, Submit(count));
    StepKeepsOrder(s, Submit(count));
    if WindowClosed(s) || |s.workers| == 1 {
      StepKeepsClaimed(s, Submit(count));
      forall es | Legal(s', es) && PoliteRun(s', es)
        ensures Exec(s', es).pool.processing <= Exec(s', es).pool.queued || Storing(Exec(s', es).client)
      {
        RunKeepsClaimed(s', es);
      }
    } else {
      var c := SubmitLeavesLone(s, count);
      forall es | Legal(s', es) && PoliteRun(s', es)
        ensures Exec(s', es).pool.processing <= Exec(s', es).pool.queued || Storing(Exec(s', es).client)
      {
        LoneIsSafe(s', c, es);
      }
    }
  }

  lemma SubmitLeavesLone(s: State, count: nat) returns (c: nat)
    requires Orderly(s) && Claimed(s) && !Resetting(s.client) && |s.workers| > 1 && !WindowClosed(s)
    requires forall a, b :: !Overtakable(s, a, b)
    ensures Lone(Next(s, Submit(count)), c)
  {
    var a :| 0 <= a < |s.workers| && s.workers[a].LoadProcessing?;
    c := if Committed(s, a) then |s.workers| else a;
    var s' := Next(s, Submit(count));
    assert WorkersOk(s, true);
    SubmitKeepsSound(s, count, true);
    assert WorkerOk(s.pool, false, s.workers[a]);
    var b := if a == 0 then 1 else 0;
    assert !Overtakable(s, a, b);
    forall t | 0 <= t < |s.workers| && t != c
      ensures Committed(s', t) && (s'.workers[t].LoadProcessing? ==> c >= |s.workers|)
    {
      assert !Overtakable(s, a, t);
      assert WorkerOk(s.pool, false, s.workers[t]);
      assert Committed(s, t);
    }
  }

  // ----- back to the top of the loop

  /** Steps of its own that worker `b` is away from the top of its loop. */
  function ToTop(w: Worker): nat {
    match w
    case LoadQueued => 0
    case Starting => 1
    case WaitDone => 1
    case Signal => 1
    case Absent => 2
    case Waiting => 2
    case CheckLast(_, _) => 2
    case BeginWait => 3
    case Count(_) => 3
    case CheckRunning => 4
    case Kernel(_, _) => 4
    case LockIdle => 5
    case Claim(_, _) => 5
    case Test(_, _) => 6
    case LoadProcessing(_) => 7
    case _ => 8
  }

  /** Steps after which the client gives the mutex back. */
  function ClientToRelease(n: nat, c: Client): nat {
    match c
    case StartCheck => 2
    case Create(i) => if i <= n then n - i + 2 else 0
    case SyncLoadQueued(_) => 4
    case SyncLoadProcessed(_, _) => 3
    case SyncTest(_, _, _) => 2
    case StopCheck => 3
    case StopClear => 2
    case _ => 1
  }

  /** Steps of its holder after which the mutex is free. */
  function ToRelease(s: State): nat {
    if s.pool.mutex == Free then 0
    else if s.pool.mutex.id < |s.workers| then if s.workers[s.pool.mutex.id].CheckRunning? then 2 else 1
    else ClientToRelease(|s.workers|, s.client)
  }

  /** `b` is on its way to the top of its loop while `a` stays between its loads, or before its increment. */
  ghost predicate Driven(s: State, a: nat, b: nat) {
    && Orderly(s) && Beside(s, a, b) && !Resetting(s.client)
    && (s.workers[a].LoadProcessing? || s.workers[a].Count?)
    && WorkerOk(s.pool, true, s.workers[b]) && s.pool.processing <= s.pool.queued
  }

  /** `e` leaves `a` and `queued` as they are and brings `b` closer to the top of its loop. */
  ghost predicate Drives(s: State, a: nat, b: nat, e: Event) {
    && Driven(s, a, b) && Enabled(s, e) && Internal(e)
    && var s' := Next(s, e);
       && Driven(s', a, b) && |s'.workers| == |s.workers|
       && s'.workers[a] == s.workers[a] && s'.pool.queued == s.pool.queued
       && (ToTop(s'.workers[b]) < ToTop(s.workers[b]) ||
           (s'.workers[b] == s.workers[b] && ToRelease(s') < ToRelease(s)))
  }

  lemma DrivesItself(s: State, a: nat, b: nat)
    requires Driven(s, a, b) && WorkerCan(s.pool, s.workers[b]) && s.workers[b] != LoadQueued
    ensures Drives(s, a, b, WorkerStep(b))
  {
    StepKeepsOrder(s, WorkerStep(b));
    WorkerAdvances(s.pool, true, b, s.workers[b], WorkerAct(s.pool, b, s.workers[b]));
  }

  lemma DrivenByHolder(s: State, a: nat, b: nat)
    requires Driven(s, a, b) && s.pool.mutex.HeldBy? && s.pool.mutex.id < |s.workers|
    requires s.workers[b].LockIdle? || s.workers[b].Waiting?
    ensures Drives(s, a, b, WorkerStep(s.pool.mutex.id))
  {
    StepKeepsOrder(s, WorkerStep(s.pool.mutex.id));
  }

  lemma DrivenByCreate(s: State, a: nat, b: nat)
    requires Driven(s, a, b) && s.client.Create?
    requires s.workers[b].LockIdle? || s.workers[b].Waiting? || s.workers[b].Absent?
    ensures Drives(s, a, b, ClientStep)
  {
    StepKeepsOrder(s, ClientStep);
    assert s.client.i < |s.workers| ==> s.workers[s.client.i].Absent?;
    assert s.pool.mutex == HeldBy(|s.workers|);
  }

  lemma DrivenByClient(s: State, a: nat, b: nat)
    requires Driven(s, a, b) && s.pool.mutex == HeldBy(|s.workers|) && !s.client.Create?
    requires s.workers[b].LockIdle? || s.workers[b].Waiting?
    ensures Drives(s, a, b, ClientStep)
  {
    assert !s.workers[a].Absent? && ClientHolds(s.client) && !s.client.StartSet?;
    ReleaseComesCloser(s);
    StepKeepsOrder(s, ClientStep);
  }

  /** A client that holds the mutex goes on to release it, and begins neither a stop nor a reset. */
  lemma ReleaseComesCloser(s: State)
    requires ClientHolds(s.client) && s.pool.mutex == HeldBy(|s.workers|) && !s.client.Create? && !s.client.StartSet?
    requires !Resetting(s.client)
    ensures ClientCan(s)
    ensures var s' := ClientAct(s);
      && s'.workers == s.workers && s'.pool.queued == s.pool.queued && s'.pool.processing == s.pool.processing
      && ToRelease(s') < ToRelease(s) && !Resetting(s'.client) && (Ending(s') ==> Ending(s))
  {
  }

  lemma DrivenStep(s: State, a: nat, b: nat) returns (e: Event)
    requires Driven(s, a, b) && s.workers[b] != LoadQueued
    ensures Drives(s, a, b, e)
  {
    if WorkerCan(s.pool, s.workers[b]) {
      e := WorkerStep(b);
      DrivesItself(s, a, b);
    } else if s.pool.mutex.HeldBy? && s.pool.mutex.id < |s.workers| {
      e := WorkerStep(s.pool.mutex.id);
      DrivenByHolder(s, a, b);
    } else {
      e := ClientStep;
      if s.client.Create? {
        DrivenByCreate(s, a, b);
      } else {
        DrivenByClient(s, a, b);
      }
    }
  }

  /** `es'` extends `es` by steps of workers and of the client inside a call. */
  predicate Extends(es: seq<Event>, es': seq<Event>) {
    es <= es' && forall i :: |es| <= i < |es'| ==> Internal(es'[i])
  }

  lemma {:induction false} ReachesTop(s0: State, es: seq<Event>, s: State, a: nat, b: nat)
      returns (es': seq<Event>, s': State)
    requires Leads(s0, es, s) && Driven(s, a, b)
    ensures Extends(es, es') && Leads(s0, es', s') && Driven(s', a, b) && s'.workers[b] == LoadQueued
    ensures s'.workers[a] == s.workers[a] && s'.pool.queued == s.pool.queued && |s'.workers| == |s.workers|
    decreases ToTop(s.workers[b]), ToRelease(s)
  {
    es', s' := es, s;
    if s.workers[b] != LoadQueued {
      var e := DrivenStep(s, a, b);
      es' := Then(s0, es, s, e, Next(s, e));
      es', s' := ReachesTop(s0, es', Next(s, e), a, b);
    }
  }

  /** From the top of its loop a worker claims the next item. */
  lemma ClaimsNext(s0: State, es: seq<Event>, s: State, t: nat) returns (es': seq<Event>, s': State)
    requires Leads(s0, es, s) && t < |s.workers| && s.workers[t] == LoadQueued
    requires s.pool.processing < s.pool.queued
    ensures Extends(es, es') && Leads(s0, es', s') && s'.client == s.client
    ensures s'.workers == s.workers[t := Kernel(s.pool.queued, s.pool.processing + 1)]
    ensures s'.pool.queued == s.pool.queued && s'.pool.processing == s.pool.processing + 1
    ensures s'.pool.processed == s.pool.processed
  {
    var q, p := s.pool.queued, s.pool.processing;
    es', s' := Works(s0, es, s, t, After(s.pool, LoadProcessing(q)));
    es', s' := Works(s0, es', s', t, After(s.pool, Test(q, p)));
    es', s' := Works(s0, es', s', t, After(s.pool, Claim(q, p)));
    var a := WorkerAct(s.pool, t, Claim(q, p));
    es', s' := Works(s0, es', s', t, a);
    assert s'.workers == s.workers[t := Kernel(q, p + 1)];
  }

  /** And returns to the top of its loop with that item run. */
  lemma RunsItem(s0: State, es: seq<Event>, s: State, t: nat, item: nat) returns (es': seq<Event>, s': State)
    requires Leads(s0, es, s) && t < |s.workers| && s.workers[t] == Kernel(s.pool.queued, item)
    ensures Extends(es, es') && Leads(s0, es', s') && s'.client == s.client && s'.workers == s.workers[t := LoadQueued]
    ensures s'.pool.queued == s.pool.queued && s'.pool.processing == s.pool.processing
  {
    var q := s.pool.queued;
    var ws := s.workers;
    es', s' := Works(s0, es, s, t, WorkerAct(s.pool, t, Kernel(q, item)));
    var d := s'.pool.processed;
    es', s' := Works(s0, es', s', t, WorkerAct(s'.pool, t, Count(q)));
    es', s' := Works(s0, es', s', t, WorkerAct(s'.pool, t, CheckLast(q, d)));
    if s'.workers[t] == Signal {
      es', s' := Works(s0, es', s', t, WorkerAct(s'.pool, t, Signal));
    }
    assert s'.workers == ws[t := LoadQueued];
  }

  /** One worker alone can claim everything that is queued. */
  lemma {:induction false} ClaimsAll(s0: State, es: seq<Event>, s: State, t: nat)
      returns (es': seq<Event>, s': State)
    requires Leads(s0, es, s) && t < |s.workers| && s.workers[t] == LoadQueued
    requires s.pool.processing <= s.pool.queued
    ensures Extends(es, es') && Leads(s0, es', s') && s'.client == s.client && s'.workers == s.workers
    ensures s'.pool.queued == s.pool.queued == s'.pool.processing
    decreases s.pool.queued - s.pool.processing
  {
    es', s' := es, s;
    if s.pool.processing < s.pool.queued {
      es', s' := ClaimsNext(s0, es, s, t);
      es', s' := RunsItem(s0, es', s', t, s'.pool.processing);
      assert s'.workers == s.workers;
      es', s' := ClaimsAll(s0, es', s', t);
    }
  }

  /** Worker `b` overtakes `a`, and `a` claims what was never submitted. */
  lemma Overtakes(s0: State, es: seq<Event>, s: State, a: nat, b: nat) returns (es': seq<Event>, z: State)
    requires Leads(s0, es, s) && a < |s.workers| && b < |s.workers| && a != b
    requires s.workers[b] == LoadQueued && s.workers[a].LoadProcessing? && s.workers[a].queued < s.pool.queued
    requires s.pool.processing <= s.pool.queued
    ensures Extends(es, es') && Leads(s0, es', z) && z.client == s.client && |z.workers| == |s.workers|
    ensures z.pool.queued == s.pool.queued && z.pool.processing == s.pool.queued + 1
    ensures z.workers[a] == Kernel(s.workers[a].queued, s.pool.queued + 1)
  {
    var q := s.workers[a].queued;
    es', z := ClaimsAll(s0, es, s, b);
    var p := z.pool.processing;
    es', z := Works(s0, es', z, a, After(z.pool, Test(q, p)));
    es', z := Works(s0, es', z, a, After(z.pool, Claim(q, p)));
    es', z := Works(s0, es', z, a, WorkerAct(z.pool, a, Claim(q, p)));
  }

  lemma SubmitDrives(s: State, a: nat, b: nat, count: nat)
    requires Orderly(s) && Claimed(s) && !Resetting(s.client) && Overtakable(s, a, b)
    ensures Driven(Next(s, Submit(count)), a, b) && s.workers[a] == LoadProcessing(s.pool.queued)
  {
    StepKeepsOrder(s, Submit(count));
    assert WorkerOk(s.pool, false, s.workers[a]) && WorkerOk(s.pool, false, s.workers[b]);
  }

  /**
   Whenever a worker can be overtaken, a submit of at least one item has a continuation in which it
   runs the kernel on an item beyond `queued`.
   */
  lemma WindowIsFatal(s: State, a: nat, b: nat, count: nat) returns (es: seq<Event>, z: State)
    requires Orderly(s) && Claimed(s) && !Resetting(s.client) && Overtakable(s, a, b) && count > 0
    ensures var s' := Next(s, Submit(count));
            Leads(s', es, z) && Extends([], es) && z.pool.queued == s'.pool.queued
    ensures z.pool.processing == z.pool.queued + 1 && !Storing(z.client)
    ensures a < |z.workers| && z.workers[a] == Kernel(s.pool.queued, z.pool.queued + 1)
  {
    var s' := Next(s, Submit(count));
    SubmitDrives(s, a, b, count);
    assert Leads(s', [], s');
    es, z := ReachesTop(s', [], s', a, b);
    es, z := Overtakes(s', es, z, a, b);
  }

  // ----- exactly which submits are safe

  /**
   In a pool of any size and whatever the workers and the client are doing, a submit leaves every
   polite continuation free of over-claiming if and only if no worker can be overtaken.
   */
  lemma SubmitIsSafeExactly(s: State, count: nat)
    requires Orderly(s) && Claimed(s) && !Resetting(s.client) && count > 0
    ensures SafeFrom(Next(s, Submit(count))) <==> forall a, b :: !Overtakable(s, a, b)
  {
    if a, b :| Overtakable(s, a, b) {
      var s' := Next(s, Submit(count));
      var es, z := WindowIsFatal(s, a, b, count);
      HarmlessIsPolite(s', es);
      assert Exec(s', es) == z;
    } else {
      NotOvertakableIsSafe(s, count);
    }
  }

  /**
   As long as no stop has begun, that means: in a pool of several workers a submit is safe if and only
   if no worker is between its load of `queued` and its load of `processing`.
   */
  lemma SubmitIsSafeExactlyOutsideWindow(s: State, count: nat)
    requires Orderly(s) && Claimed(s) && !Resetting(s.client) && count > 0
    requires |s.workers| > 1 && !Ending(s)
    ensures SafeFrom(Next(s, Submit(count))) <==> WindowClosed(s)
  {
    SubmitIsSafeExactly(s, count);
    if a :| 0 <= a < |s.workers| && s.workers[a].LoadProcessing? {
      assert Overtakable(s, a, if a == 0 then 1 else 0);
    }
  }

  // ----- such states are reachable

  /**
   A run of two workers in which one submit of one item ends with a worker running item 2: the
   condition that submits keep out of the window cannot be dropped.
   */
  lemma OverClaimReachable() returns (es: seq<Event>, z: State)
    ensures Leads(Init(2), es, z) && z.pool.queued == 1 && z.pool.processing == 2
    ensures |z.workers| == 2 && z.workers[0] == Kernel(0, 2)
  {
    var s;
    es, s := TwoAtTop();
    es, s := Works(Init(2), es, s, 0, After(s.pool, LoadProcessing(0)));
    var submitted := s.(pool := s.pool.(queued := 1));
    es := Then(Init(2), es, s, Submit(1), submitted);
    es, z := Overtakes(Init(2), es, submitted, 0, 1);
  }
}
