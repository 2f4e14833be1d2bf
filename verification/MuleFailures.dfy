/**
 Lock-freedom of claiming: a compare-and-swap on `processing` fails only because another worker's
 succeeded, so failures are bounded by successes whatever is submitted and whenever.
 */
module MuleFailures {
  import opened Tally
  import opened MuleModel
  import opened MuleClaims

  /** The worker holds a value of `processing` older than `now`. */
  function StaleAt(now: nat): Worker -> nat {
    (w: Worker) => if (w.Test? || w.Claim?) && w.seen < now then 1 else 0
  }

  function Stale(s: State): nat { Sum(s.workers, StaleAt(s.pool.processing)) }

  ghost predicate Recent(s: State) {
    forall t :: 0 <= t < |s.workers| && (s.workers[t].Test? || s.workers[t].Claim?) ==>
      s.workers[t].seen <= s.pool.processing
  }

  /** Failures, and workers bound to fail, are at most n - 1 for each success. */
  ghost predicate FailuresBounded(s: State) {
    && ResetOk(s) && Recent(s)
    && (!Storing(s.client) ==> s.pool.processing == |s.pool.log.claims|)
    && s.pool.log.failed + Stale(s) + |s.pool.log.claims| <= |s.workers| * |s.pool.log.claims|
  }

  lemma InitFailures(n: nat)
    ensures FailuresBounded(Init(n))
  {
    SumZero(Init(n).workers, StaleAt(0));
  }

  /** After a success everyone else may be stale, but not the worker that succeeded. */
  lemma {:induction false} StaleExceptOne(ws: seq<Worker>, t: nat, now: nat)
    requires t < |ws| && StaleAt(now)(ws[t]) == 0
    ensures Sum(ws, StaleAt(now)) + 1 <= |ws|
  {
    if t == 0 {
      SumBounded(ws[1..], StaleAt(now), 1);
    } else {
      StaleExceptOne(ws[1..], t - 1, now);
    }
  }

  lemma Grows(n: nat, c: nat, q: nat)
    requires c <= q
    ensures n * (c + 1) == n * c + n && n * c <= n * q
  {
    assert n * q - n * c == n * (q - c);
  }

  lemma SuccessKeepsFailures(s: State, t: nat)
    requires FailuresBounded(s) && Enabled(s, WorkerStep(t))
    requires s.workers[t].Claim? && s.workers[t].seen == s.pool.processing
    ensures FailuresBounded(Next(s, WorkerStep(t)))
  {
    var s' := Next(s, WorkerStep(t));
    StaleExceptOne(s'.workers, t, s'.pool.processing);
    Grows(|s.workers|, |s.pool.log.claims|, |s.pool.log.claims|);
  }

  lemma OtherKeepsFailures(s: State, t: nat)
    requires FailuresBounded(s) && Enabled(s, WorkerStep(t))
    requires !(s.workers[t].Claim? && s.workers[t].seen == s.pool.processing)
    ensures FailuresBounded(Next(s, WorkerStep(t)))
  {
    var s' := Next(s, WorkerStep(t));
    assert s'.pool.processing == s.pool.processing;
    SumUpdate(s.workers, t, s'.workers[t], StaleAt(s.pool.processing));
  }

  lemma ChangeKeepsFailures(s: State)
    requires FailuresBounded(s) && ClientCan(s) && Lifecycle(s) && ChangesWorkers(s.client)
    ensures FailuresBounded(ClientAct(s))
  {
    if s.client.i < |s.workers| {
      var w := if s.client.Create? then Starting else Absent;
      SumUpdate(s.workers, s.client.i, w, StaleAt(s.pool.processing));
    }
  }

  lemma ResetKeepsFailures(s: State)
    requires FailuresBounded(s) && Resets(s.client)
    ensures FailuresBounded(ClientAct(s))
  {
    SumZero(s.workers, StaleAt(s.pool.processing));
    SumZero(s.workers, StaleAt(ClientAct(s).pool.processing));
  }

  lemma ClientKeepsFailures(s: State)
    requires FailuresBounded(s) && ClientCan(s) && Lifecycle(s)
    ensures FailuresBounded(ClientAct(s))
  {
    if ChangesWorkers(s.client) {
      ChangeKeepsFailures(s);
    } else if Resets(s.client) {
      ResetKeepsFailures(s);
    } else {
      OtherClientStep(s);
    }
  }

  lemma StepKeepsFailures(s: State, e: Event)
    requires FailuresBounded(s) && Lifecycle(s) && Enabled(s, e) && ResetAlone(s, e)
    ensures FailuresBounded(Next(s, e))
  {
    match e
    case WorkerStep(t) =>
      if s.workers[t].Claim? && s.workers[t].seen == s.pool.processing {
        SuccessKeepsFailures(s, t);
      } else {
        OtherKeepsFailures(s, t);
      }
    case ClientStep => ClientKeepsFailures(s);
    case _ =>
  }

  /** On every run, polite or not: failed + stale <= (n - 1) * successes. */
  lemma {:induction false} RunKeepsFailures(s: State, es: seq<Event>)
    requires FailuresBounded(s) && Lifecycle(s) && Legal(s, es) && ResetsAlone(s, es)
    ensures FailuresBounded(Exec(s, es)) && Lifecycle(Exec(s, es))
    decreases |es|
  {
    if es != [] {
      StepKeepsFailures(s, es[0]);
      StepKeepsLifecycle(s, es[0]);
      RunKeepsFailures(Next(s, es[0]), es[1..]);
    }
  }

  /** The step is a claim that fails and goes back to the top of the loop. */
  predicate Retries(s: State, e: Event) {
    e.WorkerStep? && Enabled(s, e) && s.workers[e.t].Claim? && !Next(s, e).workers[e.t].Kernel?
  }

  /** `failed` counts the claims that fail, each because `processing` has moved on. */
  lemma FailuresAreRetries(s: State, e: Event)
    requires Enabled(s, e) && !(e.ClientStep? && Resets(s.client))
    ensures Next(s, e).pool.log.failed == s.pool.log.failed + (if Retries(s, e) then 1 else 0)
    ensures Retries(s, e) ==> s.workers[e.t].seen != s.pool.processing && Next(s, e).workers[e.t] == LoadQueued
  {
  }

  /** With nothing submitted in the window, all non-idle iterations together are at most n * queued. */
  lemma IterationsBounded(s: State)
    requires Claimed(s) && FailuresBounded(s) && !Storing(s.client)
    ensures s.pool.log.failed + |s.pool.log.claims| <= |s.workers| * s.pool.queued
  {
    Grows(|s.workers|, |s.pool.log.claims|, s.pool.queued);
  }
}
