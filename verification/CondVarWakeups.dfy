/**
 What the accounting buys: the emulation refines the condition variable of section 7.26.3 of
 ISO/IEC 9899:2011, no wakeup is lost or stolen, and no counter overflows.
 */
module CondVarWakeups {
  import opened Tally
  import opened CondVarModel
  import opened CondVarGate
  import opened CondVarAccounting

  // ----- refinement of an abstract condition variable

  /** Registered waiters that no notification has reached yet, and those that one has. */
  datatype Abstract = Abstract(unwoken: int, woken: int)

  datatype Action = Stutter | Register | Notify(broadcast: bool) | Leave | GiveUp

  predicate Allowed(a: Abstract, x: Action) {
    (x.Leave? ==> a.woken > 0) && (x.GiveUp? ==> a.unwoken > 0)
  }

  /** Sections 7.26.3.1, 7.26.3.4, 7.26.3.5: broadcast unblocks all, signal one if there is one. */
  function Effect(a: Abstract, x: Action): Abstract {
    match x
    case Stutter => a
    case Register => Abstract(a.unwoken + 1, a.woken)
    case Notify(broadcast) =>
      if broadcast then Abstract(0, a.woken + a.unwoken)
      else if a.unwoken > 0 then Abstract(a.unwoken - 1, a.woken + 1)
      else a
    case Leave => Abstract(a.unwoken, a.woken - 1)
    case GiveUp => Abstract(a.unwoken - 1, a.woken)
  }

  /** The abstract action of a step: a signalling call acts where it picks its new counters. */
  function ActionOf(s: Shared, p: Pc): Action {
    match p
    case WaitStore(_, _) => Register
    case SigMore(b) => if s.blocked == 0 then Notify(b) else Stutter
    case SigAddAll => Notify(true)
    case SigAddOne => Notify(false)
    case SigCompare(b) => if s.blocked > s.gone then Stutter else Notify(b)
    case SigOpen(b) => Notify(b)
    case WaitCount(_, _, _) => Leave
    case IdleCount(_) => GiveUp
    case _ => Stutter
  }

  function AbstractOf(waiters: int, tokens: int): Abstract {
    if waiters > tokens then Abstract(waiters - tokens, tokens) else Abstract(0, waiters)
  }

  function View(s: State): Abstract {
    AbstractOf(Waiters(s), Tokens(s))
  }

  ghost predicate Refined(s: Shared, l: Ledger, p: Pc, s': Shared, l': Ledger) {
    var a := AbstractOf(l.waiters, s.queue + l.owed);
    && Allowed(a, ActionOf(s, p))
    && AbstractOf(l'.waiters, s'.queue + l'.owed) == Effect(a, ActionOf(s, p))
  }

  lemma SignalEndsRefines(s: Shared, t: nat, p: Pc, a: After, l: Ledger, l': Ledger)
    requires InSignalEnds(p) && CanAct(s, p, Go) && LocalPre(s, t, p)
    requires l.waiters <= FOLD_AT && Balanced(s, l) && Seen(s, l, t, p)
    requires a == SignalEndsStep(s, t, p) && Shifted(l, p, l', a.p)
    ensures Refined(s, l, p, a.sh, l')
  {
  }

  lemma NotifyRefines(s: Shared, t: nat, p: Pc, a: After, l: Ledger, l': Ledger)
    requires InNotify(p) && CanAct(s, p, Go) && LocalPre(s, t, p)
    requires l.waiters <= FOLD_AT && Balanced(s, l) && Seen(s, l, t, p)
    requires a == NotifyStep(s, t, p) && Shifted(l, p, l', a.p)
    ensures Refined(s, l, p, a.sh, l')
  {
  }

  lemma GatherRefines(s: Shared, t: nat, p: Pc, a: After, l: Ledger, l': Ledger)
    requires InOpen(p) && !p.SigOpen? && !p.SigOpenClear? && !p.SigOpenTake? && CanAct(s, p, Go) && LocalPre(s, t, p)
    requires l.waiters <= FOLD_AT && Balanced(s, l) && Seen(s, l, t, p)
    requires a == OpenStep(s, t, p) && Shifted(l, p, l', a.p)
    ensures Refined(s, l, p, a.sh, l')
  {
  }

  lemma GrantRefines(s: Shared, t: nat, p: Pc, a: After, l: Ledger, l': Ledger)
    requires (p.SigOpen? || p.SigOpenClear? || p.SigOpenTake?) && CanAct(s, p, Go) && LocalPre(s, t, p)
    requires l.waiters <= FOLD_AT && Balanced(s, l) && Seen(s, l, t, p)
    requires a == OpenStep(s, t, p) && Shifted(l, p, l', a.p)
    ensures Refined(s, l, p, a.sh, l')
  {
  }

  lemma OpenRefines(s: Shared, t: nat, p: Pc, a: After, l: Ledger, l': Ledger)
    requires InOpen(p) && CanAct(s, p, Go) && LocalPre(s, t, p)
    requires l.waiters <= FOLD_AT && Balanced(s, l) && Seen(s, l, t, p)
    requires a == OpenStep(s, t, p) && Shifted(l, p, l', a.p)
    ensures Refined(s, l, p, a.sh, l')
  {
    if !(p.SigOpen? || p.SigOpenClear? || p.SigOpenTake?) {
      GatherRefines(s, t, p, a, l, l');
    } else {
      GrantRefines(s, t, p, a, l, l');
    }
  }

  lemma ArriveRefines(s: Shared, t: nat, p: Pc, c: Choice, a: After, l: Ledger, l': Ledger)
    requires InArrival(p) && CanAct(s, p, c) && LocalPre(s, t, p)
    requires l.waiters <= FOLD_AT && Balanced(s, l) && Seen(s, l, t, p)
    requires a == ArriveStep(s, p, c) && Shifted(l, p, l', a.p)
    ensures Refined(s, l, p, a.sh, l')
  {
  }

  lemma CountRefines(s: Shared, t: nat, p: Pc, a: After, l: Ledger, l': Ledger)
    requires InCount(p) && CanAct(s, p, Go) && LocalPre(s, t, p)
    requires l.waiters <= FOLD_AT && Balanced(s, l) && Seen(s, l, t, p) && !p.LateTakeBlocked?
    requires a == CountStep(s, t, p) && Shifted(l, p, l', a.p)
    ensures Refined(s, l, p, a.sh, l')
  {
  }

  lemma FoldRefines(s: Shared, t: nat, p: Pc, a: After, l: Ledger, l': Ledger)
    requires InFold(p) && CanAct(s, p, Go) && LocalPre(s, t, p)
    requires l.waiters <= FOLD_AT && Balanced(s, l) && Seen(s, l, t, p)
    requires a == FoldStep(s, t, p) && Shifted(l, p, l', a.p)
    ensures Refined(s, l, p, a.sh, l')
  {
  }

  lemma CloseRefines(s: Shared, t: nat, p: Pc, a: After, l: Ledger, l': Ledger)
    requires InClose(p) && CanAct(s, p, Go) && LocalPre(s, t, p)
    requires l.waiters <= FOLD_AT && Balanced(s, l) && Seen(s, l, t, p)
    requires a == CloseStep(s, t, p) && Shifted(l, p, l', a.p)
    ensures Refined(s, l, p, a.sh, l')
  {
  }

  lemma SignalActRefines(s: Shared, t: nat, p: Pc, c: Choice, a: After, l: Ledger, l': Ledger)
    requires InSignalEnds(p) || InNotify(p) || InOpen(p)
    requires CanAct(s, p, c) && LocalPre(s, t, p) && !p.LateTakeBlocked?
    requires l.waiters <= FOLD_AT && Balanced(s, l) && Seen(s, l, t, p)
    requires a == Act(s, t, p, c) && Shifted(l, p, l', a.p)
    ensures Refined(s, l, p, a.sh, l')
  {
    if InSignalEnds(p) {
      SignalEndsRefines(s, t, p, a, l, l');
    } else if InNotify(p) {
      NotifyRefines(s, t, p, a, l, l');
    } else {
      OpenRefines(s, t, p, a, l, l');
    }
  }

  lemma WaitActRefines(s: Shared, t: nat, p: Pc, c: Choice, a: After, l: Ledger, l': Ledger)
    requires InArrival(p) || InCount(p) || InFold(p) || InClose(p)
    requires CanAct(s, p, c) && LocalPre(s, t, p) && !p.LateTakeBlocked?
    requires l.waiters <= FOLD_AT && Balanced(s, l) && Seen(s, l, t, p)
    requires a == Act(s, t, p, c) && Shifted(l, p, l', a.p)
    ensures Refined(s, l, p, a.sh, l')
  {
    if InArrival(p) {
      ArriveRefines(s, t, p, c, a, l, l');
    } else if InCount(p) {
      CountRefines(s, t, p, a, l, l');
    } else if InFold(p) {
      FoldRefines(s, t, p, a, l, l');
    } else {
      CloseRefines(s, t, p, a, l, l');
    }
  }

  lemma ActRefines(s: Shared, t: nat, p: Pc, c: Choice, a: After, l: Ledger, l': Ledger)
    requires CanAct(s, p, c) && LocalPre(s, t, p) && !p.LateTakeBlocked?
    requires l.waiters <= FOLD_AT && Balanced(s, l) && Seen(s, l, t, p)
    requires a == Act(s, t, p, c) && Shifted(l, p, l', a.p)
    ensures Refined(s, l, p, a.sh, l')
  {
    if InSignalEnds(p) || InNotify(p) || InOpen(p) {
      SignalActRefines(s, t, p, c, a, l, l');
    } else if !p.Idle? {
      WaitActRefines(s, t, p, c, a, l, l');
    }
  }

  lemma StepIsRefined(s: State, e: Event)
    requires GateInv(s) && Accounted(s) && Enabled(s, e) && !Breaks(s, e)
    ensures Refined(s.sh, LedgerOf(s), s.th[e.t], Next(s, e).sh, LedgerOf(Next(s, e)))
  {
    StepKeepsGate(s, e);
    LedgerSeen(s, e.t);
    LedgerShifts(s, e.t, Next(s, e));
    KnowsLocally(s, e.t);
    ActRefines(s.sh, e.t, s.th[e.t], e.c, Act(s.sh, e.t, s.th[e.t], e.c),
               LedgerOf(s), LedgerOf(Next(s, e)));
  }

  lemma RefinedViews(s: State, p: Pc, s': State)
    requires Refined(s.sh, LedgerOf(s), p, s'.sh, LedgerOf(s'))
    ensures Allowed(View(s), ActionOf(s.sh, p)) && View(s') == Effect(View(s), ActionOf(s.sh, p))
  {
  }

  /** Every step that is not line 233 is an allowed step of the abstract condition variable. */
  lemma StepRefines(s: State, e: Event)
    requires GateInv(s) && Accounted(s) && Enabled(s, e) && !Breaks(s, e)
    ensures Allowed(View(s), ActionOf(s.sh, s.th[e.t]))
    ensures View(Next(s, e)) == Effect(View(s), ActionOf(s.sh, s.th[e.t]))
  {
    StepIsRefined(s, e);
    RefinedViews(s, s.th[e.t], Next(s, e));
  }

  /** What the abstract condition variable does along a schedule. */
  function Replay(s: State, es: seq<Event>, a: Abstract): Abstract
    requires Legal(s, es)
    decreases |es|
  {
    if es == [] then a
    else Replay(Next(s, es[0]), es[1..], Effect(a, ActionOf(s.sh, s.th[es[0].t])))
  }

  /** Every action along the schedule is one the abstract condition variable allows. */
  ghost predicate AllowedRun(s: State, es: seq<Event>, a: Abstract)
    requires Legal(s, es)
    decreases |es|
  {
    es != [] ==>
      var x := ActionOf(s.sh, s.th[es[0].t]);
      Allowed(a, x) && AllowedRun(Next(s, es[0]), es[1..], Effect(a, x))
  }

  /** A whole run without line 233 is a run of the abstract condition variable. */
  lemma {:induction false} RunRefines(s: State, es: seq<Event>)
    requires GateInv(s) && Accounted(s) && Legal(s, es) && NeverBreaks(s, es) && FewWaiters(s, es)
    ensures AllowedRun(s, es, View(s)) && View(Exec(s, es)) == Replay(s, es, View(s))
    decreases |es|
  {
    if es != [] {
      StepKeepsGate(s, es[0]);
      StepKeepsAccounting(s, es[0]);
      StepRefines(s, es[0]);
      RunRefines(Next(s, es[0]), es[1..]);
    }
  }

  /** The call has not yet chosen whom to wake, or has just chosen. */
  predicate Undecided(p: Pc, broadcast: bool) {
    match p
    case SigEnter(b) => b == broadcast
    case SigTest(b) => b == broadcast
    case SigMore(b) => b == broadcast
    case SigAddAll => broadcast
    case SigAddOne => !broadcast
    case SigCompare(b) => b == broadcast
    case SigGate(b) => b == broadcast
    case SigTestGone(b) => b == broadcast
    case SigFold(b) => b == broadcast
    case SigFoldClear(b, _) => b == broadcast
    case SigOpen(b) => b == broadcast
    case _ => false
  }

  predicate Decided(p: Pc, broadcast: bool) {
    match p
    case SigClear(_) => broadcast
    case SigTakeOne => !broadcast
    case SigOpenClear(_) => broadcast
    case SigOpenTake => !broadcast
    case SigLeave(b, _) => b == broadcast
    case SigPost(_) => true
    case _ => false
  }

  /** Before it has decided, a step of a signalling call notifies and decides, or does neither. */
  lemma UndecidedStep(s: Shared, t: nat, p: Pc, c: Choice, broadcast: bool)
    requires CanAct(s, p, c) && Undecided(p, broadcast)
    ensures var p' := Act(s, t, p, c).p;
            (ActionOf(s, p) == Notify(broadcast) && Decided(p', broadcast)) ||
            (ActionOf(s, p) == Stutter && Undecided(p', broadcast))
  {
  }

  /** After it has decided, the call notifies nobody else until it returns. */
  lemma DecidedStep(s: Shared, t: nat, p: Pc, c: Choice, broadcast: bool)
    requires CanAct(s, p, c) && Decided(p, broadcast)
    ensures ActionOf(s, p) == Stutter && (Decided(Act(s, t, p, c).p, broadcast) || Act(s, t, p, c).p.Idle?)
  {
  }

  /** The notifications that thread `t` makes along a schedule. */
  function NotifiedBy(s: State, es: seq<Event>, t: nat): seq<Action>
    requires Legal(s, es)
    decreases |es|
  {
    if es == [] then []
    else
      var x := ActionOf(s.sh, s.th[es[0].t]);
      (if es[0].t == t && x.Notify? then [x] else []) + NotifiedBy(Next(s, es[0]), es[1..], t)
  }

  predicate NoCallBy(t: nat, es: seq<Event>) {
    forall e :: e in es && e.t == t ==> !IsCall(e.c)
  }

  lemma {:induction false} DecidedCall(s: State, es: seq<Event>, t: nat, broadcast: bool)
    requires t < |s.th| && Legal(s, es) && NoCallBy(t, es)
    requires Decided(s.th[t], broadcast) || s.th[t].Idle?
    ensures NotifiedBy(s, es, t) == []
    ensures t < |Exec(s, es).th| && (Decided(Exec(s, es).th[t], broadcast) || Exec(s, es).th[t].Idle?)
    decreases |es|
  {
    if es != [] {
      assert es[0] in es && forall e :: e in es[1..] ==> e in es;
      if es[0].t == t {
        DecidedStep(s.sh, t, s.th[t], es[0].c, broadcast);
      }
      DecidedCall(Next(s, es[0]), es[1..], t, broadcast);
    }
  }

  /**
   Whatever all other threads do meanwhile, a signalling call that has begun and has returned by the
   end of the schedule has made exactly one notification, the one it was called for.
   */
  lemma {:induction false} EachCallNotifiesOnce(s: State, es: seq<Event>, t: nat, broadcast: bool)
    requires t < |s.th| && Legal(s, es) && NoCallBy(t, es)
    requires Undecided(s.th[t], broadcast)
    ensures t < |Exec(s, es).th|
    ensures var p := Exec(s, es).th[t];
            if Undecided(p, broadcast) then NotifiedBy(s, es, t) == []
            else NotifiedBy(s, es, t) == [Notify(broadcast)] && (Decided(p, broadcast) || p.Idle?)
    decreases |es|
  {
    if es != [] {
      assert es[0] in es && forall e :: e in es[1..] ==> e in es;
      var s' := Next(s, es[0]);
      if es[0].t == t {
        UndecidedStep(s.sh, t, s.th[t], es[0].c, broadcast);
        if !Undecided(s'.th[t], broadcast) {
          DecidedCall(s', es[1..], t, broadcast);
          assert NotifiedBy(s, es, t) == [Notify(broadcast)];
        } else {
          EachCallNotifiesOnce(s', es[1..], t, broadcast);
          assert NotifiedBy(s, es, t) == NotifiedBy(s', es[1..], t);
        }
      } else {
        EachCallNotifiesOnce(s', es[1..], t, broadcast);
        assert NotifiedBy(s, es, t) == NotifiedBy(s', es[1..], t);
      }
    }
  }

  /** The thread is not in a signalling call that is still to decide. */
  predicate Silent(p: Pc) { !Undecided(p, true) && !Undecided(p, false) }

  lemma SilentStep(s: Shared, t: nat, p: Pc, c: Choice)
    requires CanAct(s, p, c) && !IsCall(c) && Silent(p)
    ensures !ActionOf(s, p).Notify? && Silent(Act(s, t, p, c).p)
  {
  }

  /** Waiting, timing out and leaving notify nobody: along any schedule, only signalling calls do. */
  lemma {:induction false} OnlySignallersNotify(s: State, es: seq<Event>, t: nat)
    requires t < |s.th| && Legal(s, es) && NoCallBy(t, es) && Silent(s.th[t])
    ensures NotifiedBy(s, es, t) == []
    decreases |es|
  {
    if es != [] {
      assert es[0] in es && forall e :: e in es[1..] ==> e in es;
      if es[0].t == t {
        SilentStep(s.sh, t, s.th[t], es[0].c);
      }
      OnlySignallersNotify(Next(s, es[0]), es[1..], t);
    }
  }

  /** When a broadcast leaves the monitor, every registered waiter has a token. */
  lemma BroadcastCoversAll(s: State, t: nat)
    requires GateInv(s) && Accounted(s) && t < |s.th|
    requires s.th[t].SigLeave? && s.th[t].broadcast && s.th[t].nsignal > 0
    ensures Waiters(s) <= Tokens(s)
  {
    LedgerSeen(s, t);
    assert LocalOk(s.sh, s.th[t]);
  }

  /**
   No stolen wakeup: whoever is registering does so when no token exists anywhere, posted, owed or
   taken, so every token it can later receive was granted after it registered.
   */
  lemma NoTokenWhileRegistering(s: State, t: nat)
    requires GateInv(s) && Accounted(s) && t < |s.th|
    requires s.th[t].WaitLoad? || s.th[t].WaitStore?
    ensures Tokens(s) == 0 && !EpochOpen(s)
  {
    LedgerSeen(s, t);
    SumAtLeast(s.th, t, GateHeld);
  }

  /** The drain loop always finds its tokens: exactly as many exist as it still has to take. */
  lemma DrainIsFunded(s: State, t: nat)
    requires GateInv(s) && Accounted(s) && t < |s.th| && s.th[t].Drain?
    ensures Tokens(s) == s.th[t].ngone
    ensures Waiters(s) == 0 && Blocked(s) == Gone(s) == s.sh.toUnblock == 0
  {
    LedgerSeen(s, t);
    SumAtLeast(s.th, t, GateHeld);
    assert LocalOk(s.sh, s.th[t]);
  }

  /** Outside an epoch nothing is granted; inside one, tokens and counters match the waiters. */
  lemma Accounts(s: State)
    requires Accounted(s)
    ensures !EpochOpen(s) ==> s.sh.toUnblock == 0 && Tokens(s) == 0 && Waiters(s) == Blocked(s) - Gone(s)
    ensures EpochOpen(s) ==>
              && Waiters(s) == Blocked(s) + s.sh.toUnblock
              && Tokens(s) == s.sh.toUnblock + Gone(s) + DrainLeft(s)
              && (Gone(s) > 0 ==> Blocked(s) == 0)
    ensures Drainers(s) > 0 ==> Blocked(s) == 0 && Gone(s) == 0
  {
    SumMonotone(s.th, Draining, Closing);
  }

  /** No counter leaves the range of `int`, however many timeouts the run has seen. */
  lemma CountersInRange(s: State)
    requires GateInv(s) && Accounted(s)
    ensures 0 <= s.sh.blocked <= INT_MAX && 0 <= s.sh.gone <= FOLD_AT
    ensures 0 <= s.sh.toUnblock <= FOLD_AT && s.sh.queue <= FOLD_AT
  {
    if s.sh.monitor.HeldBy? {
      LedgerSeen(s, s.sh.monitor.id);
      assert LocalOk(s.sh, Owner(s));
    }
  }
}
