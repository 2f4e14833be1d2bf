/**
 The emulated condition variable as a step machine: every thread of a table carries a program
 counter, and one step performs one access to the shared state. The number after a constructor is
 the line of threads_win32.h which that step executes.
 */
module CondVarModel {
  import opened Basics
  import opened Tally

  const INT_MAX: int := 0x7FFF_FFFF
  /** The value of `INT_MAX/2` at which abandoned registrations are folded back. */
  const FOLD_AT: int := INT_MAX / 2
  const LONG_MAX: int := 0x7FFF_FFFF

  /** How a wait on the token semaphore ended (226-227). */
  datatype Wake = Token | TimedOut

  datatype Pc =
    | Idle                                                  // outside every call
    // impl_cond_do_signal
    | SigEnter(broadcast: bool)                             // 179
    | SigTest(broadcast: bool)                              // 180
    | SigMore(broadcast: bool)                              // 181, 185
    | SigAddAll                                             // 186
    | SigClear(nsignal: int)                                // 187
    | SigAddOne                                             // 189-190
    | SigTakeOne                                            // 191
    | SigCompare(broadcast: bool)                           // 193
    | SigGate(broadcast: bool)                              // 194
    | SigTestGone(broadcast: bool)                          // 195
    | SigFold(broadcast: bool)                              // 196
    | SigFoldClear(broadcast: bool, folded: int)            // 197
    | SigOpen(broadcast: bool)                              // 199, 200 or 203
    | SigOpenClear(nsignal: int)                            // 201
    | SigOpenTake                                           // 204
    | SigLeave(broadcast: bool, nsignal: int)               // 207
    | SigPost(nsignal: int)                                 // 209-210
    // impl_cond_do_wait
    | WaitGate(timed: bool)                                 // 220
    | WaitLoad(timed: bool)                                 // 221, the load
    | WaitStore(timed: bool, loaded: int)                   // 221, the store
    | WaitUngate(timed: bool)                               // 222
    | WaitUnlock(timed: bool)                               // 224
    | WaitToken(timed: bool)                                // 226-227
    | WaitEnter(wake: Wake)                                 // 229
    | WaitTest(wake: Wake)                                  // 230-231
    | LateTest(nleft: int)                                  // 232
    | LateTakeBlocked(nleft: int)                           // 233
    | LateAddGone(nleft: int)                               // 235
    | WaitCount(wake: Wake, nleft: int, viaGone: bool)      // 238
    | LastTest(wake: Wake, nleft: int)                      // 239
    | LastReopen(wake: Wake)                                // 240-241
    | LastGone(wake: Wake, nleft: int)                      // 243-244
    | IdleCount(wake: Wake)                                 // 247
    | FoldGate(wake: Wake)                                  // 248
    | FoldSub(wake: Wake)                                   // 249
    | FoldUngate(wake: Wake, folded: int)                   // 250
    | FoldClear(wake: Wake, folded: int)                    // 251
    | WaitLeave(wake: Wake, nleft: int, ngone: int)         // 253, 255
    | Drain(wake: Wake, ngone: int)                         // 256-257
    | DrainReopen(wake: Wake)                               // 258
    | WaitRelock(wake: Wake)                                // 261-262

  /** The fields of `cnd_t`, and counts of epochs begun and ended so far. */
  datatype Shared = Shared(
    blocked: int, gone: int, toUnblock: int,
    queue: nat, gate: nat, monitor: Lock,
    begun: nat, endedInside: nat, endedOutside: nat)

  datatype State = State(sh: Shared, th: seq<Pc>)

  /** What one step of a thread leaves: the shared fields and the thread's own next state. */
  datatype After = After(sh: Shared, p: Pc)

  /** What the scheduler may ask of a thread. */
  datatype Choice = Go | TimeOut | CallSignal | CallBroadcast | CallWait | CallTimedWait

  datatype Event = Event(t: nat, c: Choice)

  /** `cnd_init` (360-365) with `n` threads outside every call. */
  function Init(n: nat): State {
    State(Shared(0, 0, 0, 0, 1, Free, 0, 0, 0), seq(n, _ => Idle))
  }

  /** `ReleaseSemaphore(sem_gate, 1)` on a semaphore created with maximum 1 (364): it fails when full. */
  function ReleaseGate(gate: nat): nat {
    if gate + 1 <= 1 then gate + 1 else gate
  }

  /** `ReleaseSemaphore(sem_queue, n)` on a semaphore created with maximum LONG_MAX (363). */
  function ReleaseQueue(queue: nat, n: int): nat {
    if 0 < n && queue + n <= LONG_MAX then queue + n else queue
  }

  predicate IsCall(c: Choice) {
    c.CallSignal? || c.CallBroadcast? || c.CallWait? || c.CallTimedWait?
  }

  /** When a thread at `p` can make the step `c`; a blocking operation is simply not enabled. */
  predicate CanAct(s: Shared, p: Pc, c: Choice) {
    match p
    case Idle => IsCall(c)
    case SigEnter(_) => c == Go && s.monitor == Free
    case WaitEnter(_) => c == Go && s.monitor == Free
    case SigGate(_) => c == Go && s.gate > 0
    case WaitGate(_) => c == Go && s.gate > 0
    case FoldGate(_) => c == Go && s.gate > 0
    case WaitToken(timed) => (c == Go && s.queue > 0) || (c == TimeOut && timed)
    case Drain(_, ngone) => c == Go && (ngone != 0 ==> s.queue > 0)
    case _ => c == Go
  }

  function Call(c: Choice): Pc {
    match c
    case CallSignal => SigEnter(false)
    case CallBroadcast => SigEnter(true)
    case CallWait => WaitGate(false)
    case CallTimedWait => WaitGate(true)
    case _ => Idle
  }

  predicate InSignalEnds(p: Pc) {
    p.SigEnter? || p.SigTest? || p.SigLeave? || p.SigPost?
  }

  /** One step of entering and leaving `impl_cond_do_signal` (179-180, 207-210). */
  function SignalEndsStep(s: Shared, t: nat, p: Pc): After
    requires InSignalEnds(p) && CanAct(s, p, Go)
  {
    match p
    case SigEnter(b) => After(s.(monitor := HeldBy(t)), SigTest(b))
    case SigTest(b) => After(s, if s.toUnblock != 0 then SigMore(b) else SigCompare(b))
    case SigLeave(_, n) => After(s.(monitor := Free), if 0 < n then SigPost(n) else Idle)
    case SigPost(n) => After(s.(queue := ReleaseQueue(s.queue, n)), Idle)
  }

  predicate InNotify(p: Pc) {
    p.SigMore? || p.SigAddAll? || p.SigClear? || p.SigAddOne? || p.SigTakeOne?
  }

  /** One step of signalling while an epoch runs (181-191). */
  function NotifyStep(s: Shared, t: nat, p: Pc): After
    requires InNotify(p) && CanAct(s, p, Go)
  {
    match p
    case SigMore(b) =>
      After(s, if s.blocked == 0 then SigLeave(b, 0) else if b then SigAddAll else SigAddOne)
    case SigAddAll => After(s.(toUnblock := s.toUnblock + s.blocked), SigClear(s.blocked))
    case SigClear(n) => After(s.(blocked := 0), SigLeave(true, n))
    case SigAddOne => After(s.(toUnblock := s.toUnblock + 1), SigTakeOne)
    case SigTakeOne => After(s.(blocked := s.blocked - 1), SigLeave(false, 1))
  }

  predicate InOpen(p: Pc) {
    p.SigCompare? || p.SigGate? || p.SigTestGone? || p.SigFold? || p.SigFoldClear? || p.SigOpen? ||
    p.SigOpenClear? || p.SigOpenTake?
  }

  /** One step of opening an epoch (193-205). */
  function OpenStep(s: Shared, t: nat, p: Pc): After
    requires InOpen(p) && CanAct(s, p, Go)
  {
    match p
    case SigCompare(b) => After(s, if s.blocked > s.gone then SigGate(b) else SigLeave(b, 0))
    case SigGate(b) => After(s.(gate := s.gate - 1, begun := s.begun + 1), SigTestGone(b))
    case SigTestGone(b) => After(s, if s.gone != 0 then SigFold(b) else SigOpen(b))
    case SigFold(b) => After(s.(blocked := s.blocked - s.gone), SigFoldClear(b, s.gone))
    case SigFoldClear(b, _) => After(s.(gone := 0), SigOpen(b))
    case SigOpen(b) =>
      if b then After(s.(toUnblock := s.blocked), SigOpenClear(s.blocked))
      else After(s.(toUnblock := 1), SigOpenTake)
    case SigOpenClear(n) => After(s.(blocked := 0), SigLeave(true, n))
    case SigOpenTake => After(s.(blocked := s.blocked - 1), SigLeave(false, 1))
  }

  predicate InArrival(p: Pc) {
    p.WaitGate? || p.WaitLoad? || p.WaitStore? || p.WaitUngate? || p.WaitUnlock? || p.WaitToken?
  }

  /** One step of the first half of `impl_cond_do_wait`: registering and waiting for a token (220-227). */
  function ArriveStep(s: Shared, p: Pc, c: Choice): After
    requires InArrival(p) && CanAct(s, p, c)
  {
    match p
    case WaitGate(timed) => After(s.(gate := s.gate - 1), WaitLoad(timed))
    case WaitLoad(timed) => After(s, WaitStore(timed, s.blocked))
    case WaitStore(timed, x) => After(s.(blocked := x + 1), WaitUngate(timed))
    case WaitUngate(timed) => After(s.(gate := ReleaseGate(s.gate)), WaitUnlock(timed))
    case WaitUnlock(timed) => After(s, WaitToken(timed))
    case WaitToken(_) =>
      if c == TimeOut then After(s, WaitEnter(TimedOut))
      else After(s.(queue := s.queue - 1), WaitEnter(Token))
  }

  predicate InCount(p: Pc) {
    p.WaitEnter? || p.WaitTest? || p.LateTest? || p.LateTakeBlocked? || p.LateAddGone? || p.WaitCount?
  }

  /** One step of a woken waiter that accounts for itself inside an epoch (229-238). */
  function CountStep(s: Shared, t: nat, p: Pc): After
    requires InCount(p) && CanAct(s, p, Go)
  {
    match p
    case WaitEnter(k) => After(s.(monitor := HeldBy(t)), WaitTest(k))
    case WaitTest(k) =>
      After(s, if s.toUnblock == 0 then IdleCount(k)
                else if k == TimedOut then LateTest(s.toUnblock)
                else WaitCount(k, s.toUnblock, false))
    case LateTest(nleft) =>
      After(s, if s.blocked != 0 then LateTakeBlocked(nleft) else LateAddGone(nleft))
    case LateTakeBlocked(nleft) => After(s.(blocked := s.blocked - 1), WaitCount(TimedOut, nleft, false))
    case LateAddGone(nleft) => After(s.(gone := s.gone + 1), WaitCount(TimedOut, nleft, true))
    case WaitCount(k, nleft, _) =>
      After(s.(toUnblock := s.toUnblock - 1),
        if s.toUnblock - 1 == 0 then LastTest(k, nleft) else WaitLeave(k, nleft, 0))
  }

  predicate InFold(p: Pc) {
    p.IdleCount? || p.FoldGate? || p.FoldSub? || p.FoldUngate? || p.FoldClear?
  }

  /** One step of a timed-out waiter that gives its registration up, folding them at INT_MAX/2 (247-251). */
  function FoldStep(s: Shared, t: nat, p: Pc): After
    requires InFold(p) && CanAct(s, p, Go)
  {
    match p
    case IdleCount(k) =>
      After(s.(gone := s.gone + 1), if s.gone + 1 == FOLD_AT then FoldGate(k) else WaitLeave(k, 0, 0))
    case FoldGate(k) => After(s.(gate := s.gate - 1), FoldSub(k))
    case FoldSub(k) => After(s.(blocked := s.blocked - s.gone), FoldUngate(k, s.gone))
    case FoldUngate(k, g) => After(s.(gate := ReleaseGate(s.gate)), FoldClear(k, g))
    case FoldClear(k, _) => After(s.(gone := 0), WaitLeave(k, 0, 0))
  }

  predicate InClose(p: Pc) {
    p.LastTest? || p.LastReopen? || p.LastGone? || p.WaitLeave? || p.Drain? || p.DrainReopen? || p.WaitRelock?
  }

  /** One step of ending an epoch and leaving (239-244, 253-262). */
  function CloseStep(s: Shared, t: nat, p: Pc): After
    requires InClose(p) && CanAct(s, p, Go)
  {
    match p
    case LastTest(k, nleft) => After(s, if s.blocked != 0 then LastReopen(k) else LastGone(k, nleft))
    case LastReopen(k) =>
      After(s.(gate := ReleaseGate(s.gate), endedInside := s.endedInside + 1), WaitLeave(k, 0, 0))
    case LastGone(k, nleft) =>
      After(s.(gone := 0), WaitLeave(k, nleft, s.gone))
    case WaitLeave(k, nleft, ngone) =>
      After(s.(monitor := Free), if nleft == 1 then Drain(k, ngone) else WaitRelock(k))
    case Drain(k, ngone) =>
      if ngone != 0 then After(s.(queue := s.queue - 1), Drain(k, ngone - 1))
      else After(s, DrainReopen(k))
    case DrainReopen(k) =>
      After(s.(gate := ReleaseGate(s.gate), endedOutside := s.endedOutside + 1), WaitRelock(k))
    case WaitRelock(_) => After(s, Idle)
  }

  /** One step of thread `t`, standing at `p`. */
  function Act(s: Shared, t: nat, p: Pc, c: Choice): After
    requires CanAct(s, p, c)
  {
    if p.Idle? then After(s, Call(c))
    else if InSignalEnds(p) then SignalEndsStep(s, t, p)
    else if InNotify(p) then NotifyStep(s, t, p)
    else if InOpen(p) then OpenStep(s, t, p)
    else if InArrival(p) then ArriveStep(s, p, c)
    else if InCount(p) then CountStep(s, t, p)
    else if InFold(p) then FoldStep(s, t, p)
    else CloseStep(s, t, p)
  }

  predicate Enabled(s: State, e: Event) {
    e.t < |s.th| && CanAct(s.sh, s.th[e.t], e.c)
  }

  function Next(s: State, e: Event): State
    requires Enabled(s, e)
  {
    var a := Act(s.sh, e.t, s.th[e.t], e.c);
    State(a.sh, s.th[e.t := a.p])
  }

  /** A schedule is legal when each of its events is enabled in turn. */
  predicate Legal(s: State, es: seq<Event>)
    decreases |es|
  {
    es == [] || (Enabled(s, es[0]) && Legal(Next(s, es[0]), es[1..]))
  }

  function Exec(s: State, es: seq<Event>): State
    requires Legal(s, es)
    decreases |es|
  {
    if es == [] then s else Exec(Next(s, es[0]), es[1..])
  }

  // ----- what a program counter stands for

  /** The thread gives up its registration by folding: `gone` has reached INT_MAX/2 (248-249). */
  function Folding(p: Pc): nat { if p.FoldGate? || p.FoldSub? then 1 else 0 }

  /** The thread came through line 233. */
  function Strayed(p: Pc): nat { if p.WaitCount? && p.wake == TimedOut && !p.viaGone then 1 else 0 }

  /** The thread holds `monitor`. */
  predicate InMonitor(p: Pc) {
    p.SigTest? || p.SigMore? || p.SigAddAll? || p.SigClear? || p.SigAddOne? || p.SigTakeOne? ||
    p.SigCompare? || p.SigGate? || p.SigTestGone? || p.SigFold? || p.SigFoldClear? || p.SigOpen? ||
    p.SigOpenClear? || p.SigOpenTake? || p.SigLeave? ||
    p.WaitTest? || p.LateTest? || p.LateTakeBlocked? || p.LateAddGone? || p.WaitCount? ||
    p.LastTest? || p.LastReopen? || p.LastGone? ||
    p.IdleCount? || p.FoldGate? || p.FoldSub? || p.FoldUngate? || p.FoldClear? || p.WaitLeave?
  }

  /** The thread has taken the last decrement of an epoch and still has to give the gate back. */
  function Closing(p: Pc): nat {
    if p.LastTest? || p.LastReopen? || p.LastGone? || p.Drain? || p.DrainReopen? ||
       (p.WaitLeave? && p.nleft == 1)
    then 1 else 0
  }

  /** A closing thread that has moved `gone` into its own drain count (past 244). */
  function Draining(p: Pc): nat {
    if p.Drain? || p.DrainReopen? || (p.WaitLeave? && p.nleft == 1) then 1 else 0
  }

  /** The thread itself holds the gate; an epoch with `toUnblock != 0` holds it without a thread. */
  function GateHeld(p: Pc): nat {
    if p.WaitLoad? || p.WaitStore? || p.WaitUngate? ||
       p.SigTestGone? || p.SigFold? || p.SigFoldClear? || p.SigOpen? ||
       p.FoldSub? || p.FoldUngate?
    then 1 else Closing(p)
  }

  /** The thread is counted in `blocked` and not yet accounted for in 230-252. */
  function Waiting(p: Pc): nat {
    if p.WaitUngate? || p.WaitUnlock? || p.WaitToken? || p.WaitEnter? || p.WaitTest? ||
       p.LateTest? || p.LateTakeBlocked? || p.LateAddGone? || p.WaitCount? || p.IdleCount?
    then 1 else 0
  }

  /** Tokens the thread still has to post, or has taken without being accounted for. */
  function Owed(p: Pc): nat {
    match p
    case SigClear(n) => if n > 0 then n else 0
    case SigTakeOne => 1
    case SigOpenClear(n) => if n > 0 then n else 0
    case SigOpenTake => 1
    case SigLeave(_, n) => if n > 0 then n else 0
    case SigPost(n) => if n > 0 then n else 0
    case WaitEnter(k) => if k == Token then 1 else 0
    case WaitTest(k) => if k == Token then 1 else 0
    case WaitCount(k, _, _) => if k == Token then 1 else 0
    case IdleCount(k) => if k == Token then 1 else 0
    case _ => 0
  }

  /** Tokens the thread still has to drain (256). */
  function ToDrain(p: Pc): nat {
    match p
    case WaitLeave(_, nleft, n) => if nleft == 1 && n > 0 then n else 0
    case Drain(_, n) => if n > 0 then n else 0
    case _ => 0
  }

  /** What the holder of the monitor still has to add to `blocked`. */
  function PendingBlocked(p: Pc): int {
    match p
    case SigClear(n) => -n
    case SigTakeOne => -1
    case SigOpenClear(n) => -n
    case SigOpenTake => -1
    case _ => 0
  }

  /** What the holder of the monitor still has to add to `gone`. */
  function PendingGone(p: Pc): int {
    match p
    case SigFoldClear(_, g) => -g
    case FoldUngate(_, g) => -g
    case FoldClear(_, g) => -g
    case WaitCount(_, _, viaGone) => if viaGone then -1 else 0
    case _ => 0
  }

  function Waiters(s: State): nat { Sum(s.th, Waiting) }
  function Tokens(s: State): nat { s.sh.queue + Sum(s.th, Owed) }
  function DrainLeft(s: State): nat { Sum(s.th, ToDrain) }
  function GateHolders(s: State): nat { Sum(s.th, GateHeld) }
  function Closers(s: State): nat { Sum(s.th, Closing) }
  function Drainers(s: State): nat { Sum(s.th, Draining) }

  /** The state of the holder of the monitor, or Idle when it is free. */
  function Owner(s: State): Pc {
    if s.sh.monitor.HeldBy? && s.sh.monitor.id < |s.th| then s.th[s.sh.monitor.id] else Idle
  }

  /** `blocked` and `gone` as they stand once the monitor's holder has finished its update. */
  function Blocked(s: State): int { s.sh.blocked + PendingBlocked(Owner(s)) }
  function Gone(s: State): int { s.sh.gone + PendingGone(Owner(s)) }

  /** From the first store to `to_unblock` until the gate is given back. */
  predicate EpochOpen(s: State) { s.sh.toUnblock != 0 || Closers(s) > 0 }
}
