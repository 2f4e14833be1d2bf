/**
 What `mule_sync` is worth when something is submitted while it runs. It loads `queued` (292) and then
 `processed` (293), and `processed` also counts items submitted in between. So a submit there may let
 the sync return while an item submitted before it is still in the kernel, and exactly when that is so
 depends on whether one worker can be held up with such an item while another one runs the new ones.
 */
module MuleBarrier {
  import opened Basics
  import opened Tally
  import opened MuleModel
  import opened MuleClaims
  import opened MuleLifecycle
  import opened MuleInvariant
  import opened MuleDrain
  import opened MuleWindow
  import opened MuleSignal

  /** The items 1..b have been run. */
  ghost predicate AllRun(s: State, b: nat) {
    b <= |s.pool.log.claims| && forall i :: 0 <= i < b ==> s.pool.log.claims[i] in s.pool.log.done
  }

  /** No call begins and nothing is submitted. */
  predicate OnlySteps(es: seq<Event>) {
    Extends([], es)
  }

  /** Whenever the sync under way leaves its loop, the items 1..b have been run. */
  ghost predicate BarrierFrom(s: State, b: nat) {
    forall es :: Legal(s, es) && OnlySteps(es) && Exec(s, es).client.SyncUnlock? ==> AllRun(Exec(s, es), b)
  }

  /** Worker `t` can claim an item while the client holds the mutex. */
  predicate Loose(s: State, t: nat)
    requires t < |s.workers|
  {
    match s.workers[t]
    case Starting => true
    case LoadQueued => true
    case LoadProcessing(q) => q != s.pool.processing
    case Test(q, p) => p != q
    case Claim(_, _) => true
    case Kernel(_, _) => true
    case Count(_) => true
    case CheckLast(_, _) => true
    case Signal => true
    case _ => false
  }

  /**
   Worker `a` has an item that is queued, or can get one, and can be held up with it while worker `b`
   runs whatever is submitted now.
   */
  predicate Raced(s: State, a: nat, b: nat) {
    && a < |s.workers| && b < |s.workers| && a != b && Loose(s, a) && Loose(s, b)
    && (s.workers[a].Kernel? || s.pool.processing < s.pool.queued)
  }

  // ----- nobody is raced: the barrier holds

  /** Nobody but `c` is loose, and if it runs one of the items 1..b then `processed` has not reached `b`. */
  ghost predicate OneLoose(s: State, c: nat, b: nat) {
    forall t :: 0 <= t < |s.workers| ==>
      && (t != c ==> !Loose(s, t))
      && (s.workers[t].Kernel? && s.workers[t].item <= b ==> s.pool.processed < b)
  }

  /** What the client's local variables in `mule_sync` promise about the items 1..b. */
  ghost predicate Promised(s: State, c: nat, b: nat) {
    && b <= s.pool.queued
    && match s.client
       case SyncLoadProcessed(_, q) => q == s.pool.queued || (q == b && (AllRun(s, b) || OneLoose(s, c, b)))
       case SyncTest(_, q, d) => d >= q ==> AllRun(s, b)
       case SyncUnlock(_) => AllRun(s, b)
       case _ => Syncing(s.client) || s.client == Outside
  }

  /** When `processed` has reached `b` and nobody runs one of the items 1..b, all of them have been run. */
  lemma NobodyBehind(s: State, b: nat)
    requires Claimed(s) && !Storing(s.client) && s.pool.processed >= b
    requires forall t :: 0 <= t < |s.workers| && s.workers[t].Kernel? ==> s.workers[t].item > b
    ensures AllRun(s, b)
  {
    forall i | 0 <= i < b
      ensures s.pool.log.claims[i] in s.pool.log.done
    {
      assert s.pool.log.claims[i] in s.pool.log.claims && !Executes(s.workers, s.pool.log.claims[i]);
    }
  }

  lemma FreshLoadKnows(s: State, b: nat)
    requires Claimed(s) && !Storing(s.client) && s.pool.processed >= s.pool.queued >= b
    ensures AllRun(s, b)
  {
    AllFinished(s);
  }

  lemma ClientKeepsPromise(s: State, c: nat, b: nat)
    requires Reachable(s) && Promised(s, c, b) && ClientCan(s) && !Resetting(s.client)
    ensures Promised(ClientAct(s), c, b)
  {
    if s.client.SyncLoadProcessed? && s.pool.processed >= s.client.queued {
      if s.client.queued == s.pool.queued {
        FreshLoadKnows(s, b);
      } else if !AllRun(s, b) {
        NobodyBehind(s, b);
      }
    }
  }

  lemma WorkerKeepsRun(s: State, t: nat, b: nat)
    requires Claimed(s) && Enabled(s, WorkerStep(t)) && AllRun(s, b)
    ensures AllRun(Next(s, WorkerStep(t)), b)
  {
    WorkerKeepsSound(s, t, |s.workers| == 1);
  }

  /** Others stay idle while the client holds the mutex. */
  lemma WorkerKeepsOneLoose(s: State, t: nat, c: nat, b: nat)
    requires Reachable(s) && Enabled(s, WorkerStep(t)) && s.client.SyncLoadProcessed? && OneLoose(s, c, b)
    ensures OneLoose(Next(s, WorkerStep(t)), c, b)
  {
    var s', alone := Next(s, WorkerStep(t)), |s.workers| == 1;
    WorkerKeepsSound(s, t, alone);
    assert s.pool.running;
    forall u | 0 <= u < |s'.workers|
      ensures u != c ==> !Loose(s', u)
      ensures s'.workers[u].Kernel? && s'.workers[u].item <= b ==> s'.pool.processed < b
    {
      assert (u != c ==> !Loose(s, u)) && (t != c ==> !Loose(s, t)) && WorkerOk(s.pool, alone, s.workers[u]);
      if s'.workers[u].Kernel? {
        SumAtLeast(s'.workers, u, Busy);
        SumAtLeast(s.workers, u, Busy);
      }
    }
  }

  lemma WorkerKeepsPromise(s: State, t: nat, c: nat, b: nat)
    requires Reachable(s) && Promised(s, c, b) && Enabled(s, WorkerStep(t))
    ensures Promised(Next(s, WorkerStep(t)), c, b)
  {
    assert Next(s, WorkerStep(t)).pool.queued == s.pool.queued;
    if AllRun(s, b) {
      WorkerKeepsRun(s, t, b);
    } else if s.client.SyncLoadProcessed? && s.client.queued != s.pool.queued {
      WorkerKeepsOneLoose(s, t, c, b);
    }
  }

  lemma StepKeepsPromise(s: State, c: nat, b: nat, e: Event)
    requires Reachable(s) && Promised(s, c, b) && !Resetting(s.client) && Enabled(s, e) && Internal(e)
    ensures Reachable(Next(s, e)) && Promised(Next(s, e), c, b) && !Resetting(Next(s, e).client)
  {
    if e.WorkerStep? {
      WorkerKeepsPromise(s, e.t, c, b);
    } else {
      ClientKeepsPromise(s, c, b);
    }
    StepKeepsReachable(s, e);
  }

  lemma {:induction false} RunKeepsPromise(s: State, c: nat, b: nat, es: seq<Event>)
    requires Reachable(s) && Promised(s, c, b) && !Resetting(s.client) && Legal(s, es) && OnlySteps(es)
    ensures Exec(s, es).client.SyncUnlock? ==> AllRun(Exec(s, es), b)
    decreases |es|
  {
    if es != [] {
      assert Internal(es[0]) && forall i :: 0 <= i < |es[1..]| ==> es[1..][i] == es[i + 1];
      StepKeepsPromise(s, c, b, es[0]);
      RunKeepsPromise(Next(s, es[0]), c, b, es[1..]);
    }
  }

  /** After the load of `queued`, at most one worker is loose, or every item that is queued has been run. */
  lemma UnracedPromises(s: State) returns (c: nat)
    requires Reachable(s) && s.client.SyncLoadProcessed? && !Resetting(s.client)
    requires forall a, b :: !Raced(s, a, b)
    ensures AllRun(s, s.pool.queued) || OneLoose(s, c, s.pool.queued)
  {
    c := 0;
    if c' :| 0 <= c' < |s.workers| && Loose(s, c') {
      c := c';
      if b :| 0 <= b < |s.workers| && b != c && Loose(s, b) {
        assert !Raced(s, c, b) && !Raced(s, b, c);
        UnracedAllRun(s, c, b);
        return;
      }
    }
    forall t | 0 <= t < |s.workers| && s.workers[t].Kernel?
      ensures s.pool.processed < s.pool.queued
    {
      SumAtLeast(s.workers, t, Busy);
    }
  }

  lemma UnracedAllRun(s: State, c: nat, b: nat)
    requires Reachable(s) && s.client.SyncLoadProcessed? && !Resetting(s.client)
    requires c < |s.workers| && b < |s.workers| && b != c && Loose(s, b) && Loose(s, c)
    requires forall a, b :: !Raced(s, a, b)
    ensures AllRun(s, s.pool.queued)
  {
    assert !Raced(s, c, b);
    forall t | 0 <= t < |s.workers|
      ensures !s.workers[t].Kernel?
    {
      assert !Raced(s, t, if t == c then b else c);
    }
    forall i | 0 <= i < s.pool.queued
      ensures s.pool.log.claims[i] in s.pool.log.done
    {
      assert s.pool.log.claims[i] in s.pool.log.claims;
    }
  }

  lemma SubmitKeepsPromise(s: State, count: nat) returns (c: nat)
    requires Reachable(s) && SyncKnows(s) && Syncing(s.client) && !Resetting(s.client)
    requires s.client.SyncLoadProcessed? ==> forall a, b :: !Raced(s, a, b)
    ensures Promised(Next(s, Submit(count)), c, s.pool.queued)
  {
    c := 0;
    var s' := Next(s, Submit(count));
    if s.client.SyncLoadProcessed? {
      c := UnracedPromises(s);
      assert AllRun(s', s.pool.queued) == AllRun(s, s.pool.queued);
      assert forall t :: 0 <= t < |s.workers| ==> Loose(s', t) == Loose(s, t);
    } else if s.pool.processed >= s.pool.queued {
      FreshLoadKnows(s, s.pool.queued);
    }
  }

  // ----- somebody is raced: the sync can return too early

  /** Own steps of a loose worker until it has claimed the next item. */
  function ToKernel(now: nat, w: Worker): nat {
    match w
    case Claim(_, p) => if p == now then 1 else 5
    case Test(_, p) => if p == now then 2 else 6
    case LoadProcessing(_) => 3
    case LoadQueued => 4
    case Starting => 5
    case Signal => 5
    case CheckLast(_, _) => 6
    case Count(_) => 7
    case _ => 8
  }

  /** A loose worker goes on to claim the next item. */
  lemma {:induction false} GetsItem(s0: State, es: seq<Event>, s: State, a: nat)
      returns (es': seq<Event>, s': State)
    requires Leads(s0, es, s) && OnlySteps(es) && a < |s.workers| && Loose(s, a) && !s.workers[a].Kernel?
    requires s.pool.processing < s.pool.queued
    ensures Leads(s0, es', s') && OnlySteps(es') && s'.client == s.client && |s'.workers| == |s.workers|
    ensures s'.pool.queued == s.pool.queued && s'.pool.processing == s.pool.processing + 1
    ensures s'.workers == s.workers[a := s'.workers[a]]
    ensures s'.workers[a].Kernel? && s'.workers[a].item == s'.pool.processing
    decreases ToKernel(s.pool.processing, s.workers[a])
  {
    var w := s.workers[a];
    es', s' := Works(s0, es, s, a, WorkerAct(s.pool, a, w));
    if !s'.workers[a].Kernel? {
      es', s' := GetsItem(s0, es', s', a);
    }
  }

  /** A loose worker comes around by its own steps. */
  lemma {:induction false} ComesAround(s0: State, es: seq<Event>, s: State, t: nat)
      returns (es': seq<Event>, s': State)
    requires Leads(s0, es, s) && OnlySteps(es) && t < |s.workers| && Loose(s, t)
    requires s.pool.processing <= s.pool.queued && WorkerOk(s.pool, true, s.workers[t])
    ensures Leads(s0, es', s') && OnlySteps(es') && s'.client == s.client
    ensures s'.pool.queued == s.pool.queued && s'.pool.processing <= s'.pool.queued
    ensures s'.workers == s.workers[t := LoadQueued]
    decreases ToTop(s.workers[t])
  {
    es', s' := es, s;
    if s.workers[t] != LoadQueued {
      var w := s.workers[t];
      WorkerAdvances(s.pool, true, t, w, WorkerAct(s.pool, t, w));
      es', s' := Works(s0, es, s, t, WorkerAct(s.pool, t, w));
      es', s' := ComesAround(s0, es', s', t);
    }
  }

  /** Held up with one of the items 1..queued, worker `a` sees `b` and the others run all the rest. */
  lemma OthersRunRest(s: State, a: nat, b: nat) returns (es: seq<Event>, z: State)
    requires Reachable(s) && WindowClosed(s) && a < |s.workers| && b < |s.workers| && a != b
    requires s.workers[a].Kernel? && Loose(s, b)
    ensures Leads(s, es, z) && OnlySteps(es) && z.client == s.client && z.pool.queued == s.pool.queued
    ensures |z.workers| == |s.workers| && z.workers[a] == s.workers[a]
    ensures z.pool.processing == z.pool.queued
    ensures forall t :: 0 <= t < |z.workers| && t != a ==> Busy(z.workers[t]) == 0
  {
    assert Leads(s, [], s) && WorkerOk(s.pool, |s.workers| == 1, s.workers[b]);
    SumAtLeast(s.workers, a, Busy);
    es, z := ComesAround(s, [], s, b);
    es, z := ClaimsAll(s, es, z, b);
    es, z := OthersFinish(s, es, z, a, 0);
  }

  /** In that state all but one item are counted, and the one is not run. */
  lemma HeldUpBehind(s: State, a: nat, b: nat)
    requires Reachable(s) && s.pool.processing == s.pool.queued > b && a < |s.workers|
    requires s.workers[a].Kernel? && s.workers[a].item <= b
    requires forall t :: 0 <= t < |s.workers| && t != a ==> Busy(s.workers[t]) == 0
    ensures s.pool.processed >= b && !AllRun(s, b)
  {
    SumOnly(s.workers, a, Busy);
    var r := Run(s.workers[a].item, a);
    assert WorkerOk(s.pool, |s.workers| == 1, s.workers[a]);
    assert r in s.pool.log.claims && r !in s.pool.log.done && s.pool.log.claims[r.item - 1] == r;
  }

  /** The client loads `processed`, finds it large enough and leaves the loop (293-294). */
  lemma SyncLeaves(s0: State, es: seq<Event>, s: State) returns (es': seq<Event>, s': State)
    requires Leads(s0, es, s) && OnlySteps(es)
    requires s.client.SyncLoadProcessed? && s.pool.processed >= s.client.queued
    ensures Leads(s0, es', s') && OnlySteps(es') && s'.client.SyncUnlock? && s'.pool == s.pool
  {
    es' := Then(s0, es, s, ClientStep, ClientAct(s));
    es' := Then(s0, es', ClientAct(s), ClientStep, ClientAct(ClientAct(s)));
    s' := ClientAct(ClientAct(s));
  }

  /** With an item in the kernel and another loose worker beside it. */
  lemma HeldUpLeaves(s: State, a: nat, b: nat, target: nat) returns (es: seq<Event>)
    requires Reachable(s) && WindowClosed(s) && a < |s.workers| && b < |s.workers| && a != b
    requires s.workers[a].Kernel? && s.workers[a].item <= target < s.pool.queued && Loose(s, b)
    requires s.client.SyncLoadProcessed? && s.client.queued == target
    ensures Legal(s, es) && OnlySteps(es) && Exec(s, es).client.SyncUnlock? && !AllRun(Exec(s, es), target)
  {
    var z;
    es, z := OthersRunRest(s, a, b);
    InternalIsUnfed(s, es);
    UnfedIsPolite(s, es);
    RunKeepsReachable(s, es);
    HeldUpBehind(z, a, target);
    es, z := SyncLeaves(s, es, z);
  }

  lemma RacedLeaves(s: State, a: nat, b: nat, target: nat) returns (es: seq<Event>)
    requires Reachable(s) && WindowClosed(s) && a < |s.workers| && b < |s.workers| && a != b
    requires Loose(s, a) && Loose(s, b) && !s.workers[a].Kernel?
    requires s.pool.processing < target < s.pool.queued
    requires s.client.SyncLoadProcessed? && s.client.queued == target
    ensures Legal(s, es) && OnlySteps(es) && Exec(s, es).client.SyncUnlock? && !AllRun(Exec(s, es), target)
  {
    var z;
    assert Leads(s, [], s);
    es, z := GetsItem(s, [], s, a);
    InternalIsUnfed(s, es);
    UnfedIsPolite(s, es);
    RunKeepsReachable(s, es);
    var more := HeldUpLeaves(z, a, b, target);
    LeadsThrough(s, es, z, more, Exec(z, more));
    es := es + more;
  }

  lemma RacedBreaks(s: State, a: nat, b: nat, count: nat) returns (es: seq<Event>)
    requires Reachable(s) && SyncKnows(s) && s.client.SyncLoadProcessed? && Raced(s, a, b)
    requires count > 0 && Polite(s, Submit(count))
    ensures var s' := Next(s, Submit(count));
      && Legal(s', es) && OnlySteps(es)
      && Exec(s', es).client.SyncUnlock? && !AllRun(Exec(s', es), s.pool.queued)
  {
    var s' := Next(s, Submit(count));
    StepKeepsReachable(s, Submit(count));
    assert WorkerOk(s.pool, false, s.workers[a]) && Loose(s', a) && Loose(s', b);
    if s.workers[a].Kernel? {
      es := HeldUpLeaves(s', a, b, s.pool.queued);
    } else if s.workers[b].Kernel? {
      es := HeldUpLeaves(s', b, a, s.pool.queued);
    } else {
      es := RacedLeaves(s', a, b, s.pool.queued);
    }
  }

  /**
   The first submit during a `mule_sync`, outside the window: whenever the sync then leaves its loop,
   every item submitted before has been run, if and only if the submit does not land between the loads
   of `queued` and `processed` while some worker is raced.
   */
  lemma SubmitKeepsBarrierExactly(s: State, count: nat)
    requires Reachable(s) && SyncKnows(s) && Syncing(s.client) && count > 0 && Polite(s, Submit(count))
    ensures BarrierFrom(Next(s, Submit(count)), s.pool.queued) <==>
            !(s.client.SyncLoadProcessed? && exists a, b :: Raced(s, a, b))
  {
    var s' := Next(s, Submit(count));
    if s.client.SyncLoadProcessed? && exists a, b :: Raced(s, a, b) {
      var a, b :| Raced(s, a, b);
      var es := RacedBreaks(s, a, b, count);
    } else {
      assert !Resetting(s.client);
      var c := SubmitKeepsPromise(s, count);
      StepKeepsReachable(s, Submit(count));
      forall es | Legal(s', es) && OnlySteps(es) && Exec(s', es).client.SyncUnlock?
        ensures AllRun(Exec(s', es), s.pool.queued)
      {
        RunKeepsPromise(s', c, s.pool.queued, es);
      }
    }
  }

  // ----- a sync that returns too early

  /** The client makes one step. */
  lemma ClientSteps(s0: State, es: seq<Event>, s: State, e: Event, s': State) returns (es': seq<Event>)
    requires LeadsPolitely(s0, es, s) && Enabled(s, e) && (e.ClientStep? || e.CallSync?) && Next(s, e) == s'
    ensures LeadsPolitely(s0, es', s')
  {
    PoliteOn(s0, es, e);
    es' := es + [e];
  }

  /** A call of `mule_sync` up to its load of `queued` (280-292). */
  lemma SyncBegins(s0: State, es: seq<Event>, s: State) returns (es': seq<Event>, s': State)
    requires LeadsPolitely(s0, es, s) && s.client == Outside && s.pool.mutex == Free
    ensures LeadsPolitely(s0, es', s')
    ensures s' == Locked(s, SyncLoadProcessed(false, s.pool.queued))
  {
    var q := s.pool.queued;
    es' := ClientSteps(s0, es, s, CallSync, s.(client := SyncLock(false)));
    es' := ClientSteps(s0, es', s.(client := SyncLock(false)), ClientStep, Locked(s, SyncLoadQueued(false)));
    s' := Locked(s, SyncLoadProcessed(false, q));
    es' := ClientSteps(s0, es', Locked(s, SyncLoadQueued(false)), ClientStep, s');
  }

  /**
   Two workers and one item submitted before the sync, which worker 0 has in the kernel; a submit between
   the sync's loads, whose item worker 1 finishes. The sync leaves its loop with the first item not run.
   */
  lemma SyncReturnsEarly() returns (es: seq<Event>, s: State)
    ensures Legal(Init(2), es) && PoliteRun(Init(2), es) && Exec(Init(2), es) == s
    ensures s.client == SyncUnlock(false) && s.pool.processed == 1 && s.pool.queued == 2
    ensures |s.workers| == 2 && s.workers[0] == Kernel(1, 1) && !AllRun(s, 1)
  {
    es, s := TwoAtTop();
    HarmlessIsPolite(Init(2), es);
    es, s := SubmitsOne(Init(2), es, s);
    es, s := Claims(Init(2), es, s, 0);
    FreeToSync(es, s);
    es, s := SyncBegins(Init(2), es, s);
    es, s := SubmitsOne(Init(2), es, s);
    es, s := Claims(Init(2), es, s, 1);
    es, s := Finishes(Init(2), es, s, 1);
    var s1 := s.(client := SyncTest(false, 1, 1));
    es := ClientSteps(Init(2), es, s, ClientStep, s1);
    s := s.(client := SyncUnlock(false));
    es := ClientSteps(Init(2), es, s1, ClientStep, s);
    NotYetRun(es, s);
  }

  /** While no worker waits or looks at `running`, and the client is outside, the mutex is free. */
  lemma FreeToSync(es: seq<Event>, s: State)
    requires LeadsPolitely(Init(2), es, s) && s.client == Outside && s.workers == [Kernel(1, 1), LoadQueued]
    ensures s.pool.mutex == Free
  {
    ReachableFromInit(2, es);
    assert forall t :: 0 <= t < |s.workers| ==> !WorkerHolds(s.workers[t]);
  }

  lemma NotYetRun(es: seq<Event>, s: State)
    requires LeadsPolitely(Init(2), es, s) && |s.workers| == 2 && s.workers[0] == Kernel(1, 1)
    ensures !AllRun(s, 1)
  {
    ReachableFromInit(2, es);
    var r := Run(1, 0);
    assert r in s.pool.log.claims && r !in s.pool.log.done && s.pool.log.claims[0] == r;
  }
}
