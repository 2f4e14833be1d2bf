# c11atomic in Dafny

A model of the concurrent core of c11atomic, the C11 `<threads.h>` and `<stdatomic.h>` emulation for
MSVC and its thread pool, with proofs about every run of any number of threads. Line numbers in
comments and constructor notes are those of the C files.

- `CondVarModel`, `CondVarGate`, `CondVarAccounting`, `CondVarDrift`, `CondVarWakeups`, `CondVarProgress`,
  `CondVarAnswers`, `CondVarDisciplines`, `CondVarLostWakeup`, `CondVarDeadlock`, `CondVarLockUp`, `CondVarHidden`,
  `CondVarObject`: the condition variable built from three counters, two semaphores and a monitor lock
  (`threads_win32.h`).
- `MuleModel`, `MuleClaims`, `MuleFailures`, `MuleLifecycle`, `MuleInvariant`, `MuleStop`, `MuleDrain`,
  `MuleCalls`, `MuleIdle`, `MuleWindow`, `MuleSignal`, `MuleBarrier`, `MuleObject`: the mumule thread pool (`mumule.h`).
- `AtomicWords`, `AtomicCell`, `AtomicObject`: the fetch family and its compare-and-swap loops
  (`stdatomic.h`).
- `OnceFlag`: `call_once`. `PingPong`: the counter handshake of the latency programs.
- `Tally`: totals over a table of threads. `Basics`: a lock and small helpers.

## How it is built

Each protocol is a step machine. A thread's program counter names the line it stands at; a step makes
one access to the shared fields, or one operation on a semaphore, lock or atomic object, and a blocking
operation is simply not enabled. A schedule is a sequence of events; theorems quantify over all legal
schedules. Monitor sections are not atomic: in the condition variable the increment of line 221 is a
separate load and store, and the waits for the gate at lines 194 and 248 happen inside the monitor.

Beside each machine stands an object (`CondVar`, `Mule`, `Atomic`, `SharedFlag`, `Channel`) whose
methods change the fields in place, line by line; their contracts equate the new state with the
machine's step and keep the machine's invariants, so the lemmas speak about the objects too.

A timed wait may return at any moment in the theorems about all runs. The runs that show something
going wrong use only timeouts that find no token, as `WaitForSingleObject` has it.

Atomic operations are sequentially consistent steps, as the header's strong ordering suggests. Only the
handshake has delayed stores: a store sits in its owner's buffer until it is delivered, which covers
the relaxed program; the acquire and release program is the case of immediate delivery.

## What turned out false, and exactly when it holds

- **Condition variable.** A waiter that times out while `to_unblock` and `blocked` are both nonzero
  executes line 233; both counters drop, its token stays behind, and the accounting is lost. It holds
  throughout a run if and only if the run avoids line 233 (`AccountedExactlyWithout233`). Otherwise each
  execution hides one registered waiter from the counters for good (`DriftLaw`), and signals overlook as
  many waiters (`SignalOverlooksStrays`): a lone waiter is not woken (`SignalIsLost`).
- **Condition variable, lock-up.** A hidden waiter may take a token that a closing thread means to drain;
  that thread then waits for ever, holding the gate, and nobody registers or is woken again (`LocksUp`,
  `DeadForever`). The condition is exact: threads inside the condition variable are stuck if and only if
  more tokens have been taken outside epochs than line 233 has been executed (`LockedUpExactly`); until
  then somebody can always move, and afterwards every run that comes to rest is locked up
  (`OverdrawnLocksUp`). Each single execution of line 233 can be followed by a lost signal or a lock-up
  (`EveryStrayCosts`). Untimed waits only, broadcasts only, or one waiter at a time each avoid line 233;
  mumule's `wake_worker` is only broadcast and `wake_dispatcher` has the one dispatcher as waiter. The
  gate results need no condition at all.
- **Thread pool, claiming.** Line 175 compares with `==`. When a submit lands between a worker's loads of
  `queued` and `processing`, another worker may overtake and the first one claims an item that was never
  submitted. In a running pool of several workers that no stop has begun to end, a submit is safe if and
  only if no worker is between the two loads (`SubmitIsSafeExactlyOutsideWindow`). In general, and with a
  stop under way, it is safe if and only if no worker between its loads has another one beside it that
  can still come around (`SubmitIsSafeExactly`). Submitting before `mule_start`, as the header's example
  does, or running one worker, always satisfies this.
- **Thread pool, draining.** A worker that finds the queue empty goes on to look at `running` and may leave
  without looking at the queue again. A submit is drained by every later stop if and only if, when it
  lands, some worker is not yet committed in this way, or the client is in the loop of `mule_sync`
  (`SubmitIsDrainedExactly`). A stop drains whatever was submitted before the start (`StopDrainsFromInit`),
  and otherwise it may drop a late submit (`LateSubmitIsDropped`).
- **Thread pool, completion.** The comment at line 214 says that the dispatcher is signalled precisely when
  the last item is processed. But a worker compares with the `queued` that it loaded before its claim. A
  submit leaves the completion of the queue signalled on every run if and only if no worker that is busy
  when it lands, or about to claim, has another one beside it that can still come around and outrun it
  (`SubmitIsSignalledExactly`); while no stop has begun, if and only if it finds no worker busy. Otherwise
  completion may go unsignalled (`CompletionUnsignalled`), and only the timeout ends the dispatcher's wait.
  When submits precede the start there is exactly one signal (`OneSignalFromInit`).
- **Thread pool, barrier.** `mule_sync` loads `queued` and then `processed`, which also counts items
  submitted in between, so it may return while an earlier item is still in the kernel
  (`SyncReturnsEarly`). Without submits during the sync it is a barrier (`SyncIsBarrier`); a submit during
  it keeps the barrier for all earlier items if and only if it does not land between the two loads while
  one worker can be held up with such an item and another one can go on (`SubmitKeepsBarrierExactly`).

## Where code and documents differ

- The code comments number the condition variable section 7.25.3; in ISO/IEC 9899:2011 it is 7.26.3, and
  `call_once` is 7.26.2.1.
- A timed-out `cnd_timedwait` answers `thrd_busy`; section 7.26.3.5 asks for `thrd_timedout`. The model
  follows the code.
- The compare-exchange of `stdatomic.h` does not store the object's value in `expected` on failure. The
  model follows the code and proves that the fetch loops cannot tell the difference. Its weak form is the
  strong one, and the bound on failed claims relies on that.
- `mumule.h` says timeouts are needed only for a thread pre-empted before its wait; in the model every
  timed wait may return at any moment.

## Model

| member | source | states |
|---|---|---|
| CondVarAccounting.AccountedExactlyWithout233 | include/compat-threads/threads_win32.h:175-263 | On every run of any number of threads of which at most INT_MAX/2 wait at once, the accounting equations (waiters, tokens, `blocked`, `gone`, `to_unblock`) hold in every state if and only if no waiter executes line 233, that is, none times out while `to_unblock` and `blocked` are both nonzero |
| CondVarAccounting.StepKeepsAccounting | include/compat-threads/threads_win32.h:175-263 | From an accounted state, one step of one thread keeps the equations, and the step at line 233 breaks them |
| CondVarAccounting.RunKeepsAccounting | include/compat-threads/threads_win32.h:175-263 | The accounting holds after every run that avoids line 233 |
| CondVarAccounting.Reachable | include/compat-threads/threads_win32.h:354-368 | Every state reached from `cnd_init` without line 233 is accounted for and keeps the gate invariant |
| CondVarAccounting.GateHolderIsAlone | include/compat-threads/threads_win32.h:238-259 | While a thread or an epoch holds the gate, nobody else is closing an epoch or draining tokens |
| CondVarDrift.DriftLaw | include/compat-threads/threads_win32.h:230-252 | On every run, line 233 included: registered waiters exceed what the counters account for by exactly the number of executions of line 233; and if at most INT_MAX/2 wait at once, tokens exceed it by that number, counted from line 238 on, less the tokens already taken outside an epoch |
| CondVarDrift.StraysAreFew | include/compat-threads/threads_win32.h:230-238 | `n` threads together execute line 233 less than `n` times in all the life of a condition variable |
| CondVarDrift.SignalOverlooksStrays | include/compat-threads/threads_win32.h:180-204 | On every run, a signaller at line 193 goes on to wake somebody if and only if more threads are registered than line 233 has been executed; at line 181 if and only if more are registered than that beyond those already woken |
| CondVarWakeups.Accounts | include/compat-threads/threads_win32.h:180-259 | Outside an epoch no token exists and the waiters are `blocked` minus `gone`; inside one, waiters are `blocked` plus `to_unblock`, tokens are `to_unblock` plus `gone` plus what is left to drain, and `gone` is positive only when `blocked` is 0 |
| CondVarWakeups.StepRefines | include/compat-threads/threads_win32.h:175-263 | Every step other than line 233 is an allowed step of an abstract condition variable in which broadcast wakes all registered waiters, signal wakes one if there is one, and a registration joins the unwoken |
| CondVarWakeups.RunRefines | include/compat-threads/threads_win32.h:175-263 | Every run without line 233 is a run of that abstract condition variable, with every action allowed when it happens (sections 7.26.3.1 to 7.26.3.6 of ISO/IEC 9899:2011) |
| CondVarWakeups.EachCallNotifiesOnce | include/compat-threads/threads_win32.h:175-210 | Over a whole call, whatever other threads do meanwhile: a signalling call that has returned has made exactly one notification, of the kind it was called for |
| CondVarWakeups.OnlySignallersNotify | include/compat-threads/threads_win32.h:213-263 | Along any schedule, a thread that is waiting, leaving a wait or outside and begins no call notifies nobody |
| CondVarAnswers.WaitAnswersTruly | include/compat-threads/threads_win32.h:213-263 | On every schedule, a waiting call that has returned has waited for a token exactly once and answers busy if and only if that wait timed out; an untimed wait never does; before its return it has answered nothing |
| CondVarAnswers.RemembersUntilReturn | include/compat-threads/threads_win32.h:227-262 | Whatever lines a woken waiter takes on its way out, it still knows how its wait ended when it answers |
| CondVarWakeups.BroadcastCoversAll | include/compat-threads/threads_win32.h:185-207 | When a broadcast that woke somebody leaves the monitor, there is a token for every registered waiter: no lost wakeup |
| CondVarWakeups.NoTokenWhileRegistering | include/compat-threads/threads_win32.h:220-222 | A thread registers only when no token exists anywhere, so it cannot take one granted to an earlier waiter: no stolen wakeup |
| CondVarWakeups.DrainIsFunded | include/compat-threads/threads_win32.h:255-259 | While a waiter drains, exactly as many tokens exist as it still has to take, nobody waits and all counters are 0 |
| CondVarWakeups.CountersInRange | include/compat-threads/threads_win32.h:193-252 | `blocked`, `gone` and `to_unblock` stay within `int`, and the token count within the semaphore's maximum, however many timeouts occur |
| CondVarProgress.LockedUpExactly | include/compat-threads/threads_win32.h:194-259 | On every run from `cnd_init` with at most INT_MAX/2 waiters at once, line 233 included: when nobody inside can move, some thread is held up if and only if the state is dead (a thread drains tokens that do not exist, see `DeadForever`), and that is so if and only if more tokens have been taken outside epochs than line 233 has been executed |
| CondVarProgress.NeverStuck | include/compat-threads/threads_win32.h:194-259 | In every state that a run with at most INT_MAX/2 waiters at once can reach (the states of the drift law), line 233 included: whenever a thread is held up at the gate, at the monitor or in the drain loop, some thread inside the condition variable can make a step that needs no caller mutex, or the state is dead |
| CondVarProgress.NotStuckUnlessOverdrawn | include/compat-threads/threads_win32.h:194-259 | On every run from `cnd_init` with at most INT_MAX/2 waiters at once, somebody can move whenever a thread is held up, as long as not more tokens have been taken outside epochs than line 233 has been executed |
| CondVarProgress.OverdrawnLocksUp | include/compat-threads/threads_win32.h:255-259 | Once more have been taken, every run with at most INT_MAX/2 waiters at once that comes to rest, whatever is called, ends locked up |
| CondVarProgress.RestIsClean | include/compat-threads/threads_win32.h:220-261 | When nobody can move and the state is not dead: everybody is outside, relocking or asleep, the gate is open, nothing is owed or left to drain, and no token is left that a waiter could take |
| CondVarProgress.NeverStuckAccounted | include/compat-threads/threads_win32.h:194-259 | Without line 233 it is never dead: whoever is held up, somebody can move |
| CondVarProgress.QuietMeansUnwoken | include/compat-threads/threads_win32.h:220-261 | Without line 233, when nobody inside can move no notified waiter is asleep and no token is left over |
| CondVarProgress.CallsRunOut | include/compat-threads/threads_win32.h:175-263 | When no new call begins, the calls under way can make at most `gone` plus a fixed number of steps each (plus what is left of drain loops) on any schedule, timeouts and line 233 included |
| CondVarProgress.WakeupsAreDelivered | include/compat-threads/threads_win32.h:207-261 | However the calls under way are scheduled, without line 233 they come to rest within that bound, and then every notified waiter has been woken and no token is left |
| CondVarDisciplines.UntimedWaitsNeverBreak | include/compat-threads/threads_win32.h:399-408 | If only untimed waits are used, no run executes line 233 |
| CondVarDisciplines.BroadcastsNeverBreak | include/compat-threads/threads_win32.h:327-336 | If only broadcasts are used, no run executes line 233 |
| CondVarDisciplines.OneWaiterNeverBreaks | include/compat-threads/threads_win32.h:230-237 | If never more than one registered waiter is unaccounted for, no run executes line 233 |
| CondVarDisciplines.BreakNeedsTwoWaiters | include/compat-threads/threads_win32.h:231-233 | Line 233 is reached only with at least two registered waiters |
| CondVarDisciplines.DedicatedWaiterNeverBreaks | src/mumule.h:271-310 | If a single thread does all the waiting, as the syncing dispatcher does on `wake_dispatcher`, no run executes line 233 |
| CondVarLostWakeup.SignalIsLost | include/compat-threads/threads_win32.h:193-233 | A concrete run of four threads through line 233, every timeout of which finds no token, after which a lone registered waiter is not woken by a complete `cnd_signal` |
| CondVarLostWakeup.StrandedWaiter | include/compat-threads/threads_win32.h:231-247 | The state that run reaches: one waiter, nobody else inside, `blocked` 1 and `gone` 1 |
| CondVarDeadlock.DeadForever | include/compat-threads/threads_win32.h:220-259 | When a thread has tokens to drain and none exists nor is owed, outside an epoch with `blocked` at most `gone`, then on every further run nobody registers, no untimed waiter wakes and the drain loop never ends |
| CondVarDeadlock.OverdrawnForever | include/compat-threads/threads_win32.h:247-259 | Once more tokens have been taken outside epochs than line 233 has been executed, on every further run fewer tokens exist than the draining thread still needs, and line 233 is never executed again |
| CondVarLockUp.LocksUp | include/compat-threads/threads_win32.h:230-257 | A concrete run of four threads with one execution of line 233 that reaches such a state, everybody else being outside |
| CondVarHidden.EveryStrayCosts | include/compat-threads/threads_win32.h:230-247 | After every execution of line 233, on any run from `cnd_init`, there is a continuation with genuine timeouts only to a dead state, or to a complete `cnd_signal` that changes nothing although a registered waiter has no token |
| CondVarGate.RunKeepsGate | include/compat-threads/threads_win32.h:175-263 | On every run, whatever times out, the gate is open or held by exactly one thread or by the running epoch, and all per-line facts hold |
| CondVarGate.StepKeepsGate | include/compat-threads/threads_win32.h:175-263 | Every step of every thread keeps that invariant |
| CondVarGate.GateAlone | include/compat-threads/threads_win32.h:194-258 | Two threads never hold the gate together, nor a thread together with a running epoch |
| CondVarGate.GateNeverOverfull | include/compat-threads/threads_win32.h:222-258 | Every release of the gate meets an empty semaphore and nobody else holding it, so it never exceeds its maximum of 1 |
| CondVarGate.EpochEndedOnce | include/compat-threads/threads_win32.h:238-259 | At most one thread closes an epoch, and exactly one epoch is then open |
| CondVarGate.EpochEndsAt240Or258 | include/compat-threads/threads_win32.h:238-259 | A waiter starts closing only by the decrement that takes `to_unblock` to 0, and gives the gate back at exactly one of lines 240 and 258 |
| CondVarGate.BlockedHasOneWriter | include/compat-threads/threads_win32.h:186-250 | Two threads are never both inside an update of `blocked` |
| CondVarGate.BlockedWrittenUnderGate | include/compat-threads/threads_win32.h:186-250 | Whoever changes `blocked` holds the gate, or the monitor inside an epoch; the increment of line 221 loses no update |
| CondVarGate.TestAt193Stays | include/compat-threads/threads_win32.h:193-204 | After the racy test of line 193 `blocked` only grows, and `gone` and `to_unblock` stay, until the signaller has the gate |
| CondVarGate.FoldsAtHalf | include/compat-threads/threads_win32.h:247 | A waiter outside an epoch goes on to fold registrations exactly when it takes `gone` to 1073741823, INT_MAX/2 |
| CondVarGate.SemaphoreMaxima | include/compat-threads/threads_win32.h:360-364 | A release of the gate leaves it at 1, and posting leaves `sem_queue` alone exactly when its maximum of 2147483647 would be exceeded |
| CondVarObject.CondVar.constructor | include/compat-threads/threads_win32.h:354-368 | `cnd_init` establishes the gate invariant, and the accounting for at most INT_MAX/2 threads |
| CondVarObject.CondVar.Step | include/compat-threads/threads_win32.h:175-263 | One line of one thread, in place, keeps the gate conserved; unless it is line 233 it keeps the accounting, and the waiters move as the abstract condition variable says |
| CondVarObject.CondVar.Run | include/compat-threads/threads_win32.h:175-263 | Any schedule run on the object keeps the gate conserved, and keeps the accounting when it avoids line 233 |
| MuleClaims.RunKeepsClaimed | src/mumule.h:145-236 | Exactly-once claiming holds in every state of every run on which no submit lands between a worker's loads of `queued` and `processing` |
| MuleClaims.StepKeepsClaimed | src/mumule.h:171-212 | Every step of a worker, the client or a submitter keeps it |
| MuleClaims.RunsStillMatch | src/mumule.h:206-212 | What the kernel has run or is running are exactly the claims won, each run on behalf of its claimer |
| MuleClaims.ExactlyOnce | src/mumule.h:171-212 | processed <= processing <= queued; the items claimed are exactly 1..processing, each claimed once, run at most once, and already run unless its claimer is running it; `processing - processed` is the number of workers between a won claim and their increment |
| MuleClaims.AllFinished | src/mumule.h:205-212 | When `processed` meets `queued`, every item 1..queued has been run and no worker is inside the kernel |
| MuleClaims.OneWorkerClaimsOnce | src/mumule.h:170-212 | A pool of one worker on every run from `mule_init`, submits landing at any moment: the items claimed are exactly 1..processing, each once and never beyond `queued`, and each has been run once unless it is running now |
| MuleClaims.StepKeepsLifecycle | src/mumule.h:246-356 | Which workers exist is determined by what the client is doing: none before the start and after the stop, all in between |
| MuleFailures.RunKeepsFailures | src/mumule.h:170-208 | On every run, submits whenever they like, failed claims plus workers holding a stale snapshot are at most (n - 1) times the successful claims |
| MuleFailures.SuccessKeepsFailures | src/mumule.h:206-208 | A success makes at most the n - 1 other workers stale |
| MuleFailures.FailuresAreRetries | src/mumule.h:206-208 | The failures counted are the claims that go back to the top of the loop, each because `processing` has moved on |
| MuleFailures.IterationsBounded | src/mumule.h:170-208 | Non-idle iterations of all workers together are at most n times `queued` |
| MuleInvariant.ReachableFromInit | src/mumule.h:134-356 | Every run from `mule_init` on which no submit lands in the window keeps claiming, the failure bound, the life cycle of workers and the mutex in order |
| MuleInvariant.StepKeepsMutex | src/mumule.h:180-200 | The mutex has at most one holder, the recorded one |
| MuleInvariant.StepKeepsStaying | src/mumule.h:180-184 | No worker leaves its loop while the pool is running |
| MuleWindow.SubmitIsSafeExactly | src/mumule.h:171-208 | Pools of any size, workers and client anywhere: a submit leaves every continuation free of over-claiming if and only if no worker is between its two loads while another can still come around to load `queued` again; that other one always can until a stop has taken the mutex, and after that unless it is committed to leave |
| MuleWindow.SubmitIsSafeExactlyOutsideWindow | src/mumule.h:171-175 | In a running pool of several workers that no stop has begun to end, a submit is safe if and only if no worker is between its two loads |
| MuleWindow.WindowIsFatal | src/mumule.h:171-208 | Any other submit can be followed to a worker running an item beyond `queued`, because line 175 tests `==` |
| MuleWindow.ReachesTop | src/mumule.h:145-236 | Wherever the other worker stands, holders of the mutex and the client can be scheduled so that it comes back to line 171 while the first one stays between its loads |
| MuleWindow.LoneIsSafe | src/mumule.h:175-232 | When a stop has begun and all workers but one are committed to leave, nothing beyond `queued` is claimed, stale loads or not |
| MuleWindow.OverClaimReachable | src/mumule.h:171-208 | Such a run from `mule_init` with two workers and one submitted item |
| MuleDrain.DrainsExactly | src/mumule.h:175-184 | Without further submits, every later stop returns with processed equal to queued if and only if nothing is left to claim, or some worker is not yet committed to leave (committed workers hold equal values of the two counters, wait for the mutex after that, or have found `running` 0), or the client is in the loop of `mule_sync` |
| MuleDrain.SubmitIsDrainedExactly | src/mumule.h:175-184 | So a submit is drained by every later stop if and only if, when it lands, some worker is not committed or the client is in that loop |
| MuleDrain.JoinedMeansDrained | src/mumule.h:349-353 | At the last join of a stop that such a worker has served, all counters agree and every item has been run |
| MuleDrain.StopLeavesItems | src/mumule.h:334-353 | When all workers are committed, the stop returns with exactly the unclaimed items left |
| MuleDrain.LateSubmitIsDropped | src/mumule.h:175-184 | Such a run from `mule_init` for every number of workers and every size of the submit |
| MuleLifecycle.SyncIsBarrier | src/mumule.h:269-319 | Whenever `mule_sync` leaves its loop, with nothing submitted during it, all counters agree, no worker is inside the kernel and every item submitted has been run |
| MuleLifecycle.StopDrains | src/mumule.h:334-356 | When `mule_stop` has joined the last worker, all counters agree, every item has been run and `threads_running` is 0 |
| MuleLifecycle.StopDrainsFromInit | src/mumule.h:334-356 | The same, every item run included, for every run from `mule_init` whose submits come before a start, whether or not `mule_sync` was called |
| MuleLifecycle.RunKeepsDraining | src/mumule.h:175-184 | On such runs a worker goes idle or exits only after the last item has been claimed |
| MuleStop.OneSignalPerBatch | src/mumule.h:212-229 | A batch submitted before its workers start is signalled complete by exactly one worker, when every item has been run |
| MuleStop.OneSignalFromInit | src/mumule.h:212-229 | The same for every run from `mule_init` whose submits precede the start and any claim: one signal, sent or about to be sent, if and only if something was submitted and all of it has been processed |
| MuleSignal.SignalsAreTriggered | src/mumule.h:212-229 | On every run without a reset, submits whenever they like: one signal for each increment of `processed` that meets the incrementing worker's own value of `queued`, and no others |
| MuleSignal.SubmitIsSignalledExactly | src/mumule.h:171-229 | Pools of any size, workers and client anywhere: a submit outside the window leaves the completion of the queue signalled on every run without further submits if and only if no worker that is busy with an item when it lands, or about to claim one, has another worker beside it that can still come around |
| MuleSignal.SubmitIsSignalledExactlyWhenIdle | src/mumule.h:171-229 | As long as no stop has begun, in a pool of several workers: if and only if the submit finds no worker busy |
| MuleSignal.OutrunIsSilent | src/mumule.h:171-229 | Any other submit can be followed to the completion of the queue by a worker that compares with an old value of `queued` |
| MuleSignal.CompletionUnsignalled | src/mumule.h:212-229 | A run of two workers with submits outside the window on which the queue is completed without any signal |
| MuleBarrier.SubmitKeepsBarrierExactly | src/mumule.h:280-314 | The first submit during a `mule_sync`, outside the window: whenever the sync then leaves its loop every item submitted before has been run, if and only if the submit does not land between lines 292 and 293 while two workers can go on without the mutex, one of them in the kernel or with something queued left to claim |
| MuleBarrier.RacedBreaks | src/mumule.h:292-294 | Any other submit can be followed to a sync that leaves its loop with such an item not run |
| MuleBarrier.SyncReturnsEarly | src/mumule.h:292-294 | Such a run from `mule_init` with two workers and two submits |
| MuleStop.RunKeepsSignalled | src/mumule.h:212-229 | On every such run signals sent or about to be sent are one exactly when the batch is complete |
| MuleStop.StopTerminates | src/mumule.h:345-353 | With nothing submitted meanwhile, at most a stated number of steps of all threads remain before `mule_stop` returns, whatever the scheduler does |
| MuleStop.NeverStuck | src/mumule.h:246-356 | Until a call of start, sync, reset or stop has returned, some thread of the pool can make a step |
| MuleCalls.CallEnds | src/mumule.h:246-356 | Whatever the workers do meanwhile, a call of start, reset or stop is over after a number of the client's own steps that is known when it begins, at most n + 10 for n workers; so is a sync as soon as everything submitted has been processed, also if it has already waited |
| MuleCalls.EveryCallCanEnd | src/mumule.h:246-356 | From every reachable state inside such a call some schedule of the workers and the client ends it |
| MuleCalls.HolderReleases | src/mumule.h:180-200 | A worker that holds the mutex gives it back within two steps of its own |
| MuleIdle.IdleWorkersWait | src/mumule.h:175-200 | On every run, each time a worker finds the queue empty it either waits once on the condition variable or leaves its loop, and it does neither otherwise |
| MuleIdle.IdleLoadsNothing | src/mumule.h:180-200 | It loads `queued` again only after that, with the mutex given back, and it leaves only a pool that has been stopped |
| MuleIdle.SyncsWait | src/mumule.h:292-308 | On every run, `mule_sync` waits once for each time it finds items unfinished, and not otherwise |
| MuleStop.ResetRestores | src/mumule.h:321-332 | After a stop, `mule_reset` leads back to the state of `mule_init` |
| MuleStop.GenerationsRepeat | src/mumule.h:321-356 | Any run from `mule_init` whose submits come before a start, up to the last join of a stop, followed by its return and a reset, leads back to the state of `mule_init` |
| MuleObject.Mule.constructor | src/mumule.h:134-143 | `mule_init` establishes the initial state and the invariants |
| MuleObject.Mule.DoSubmit | src/mumule.h:238-244 | Adds to `queued` and returns the index of the last item submitted; outside the window exactly-once claiming is kept |
| MuleObject.Mule.CompareExchangeProcessing | src/mumule.h:207-208 | The compare-and-swap on `processing` |
| MuleObject.Mule.WorkerRuns | src/mumule.h:157-232 | One operation of `mule_thread`, in place: keeps the order of workers and mutex, and exactly-once claiming if it held; then counters stay ordered, `queued` is untouched and the only claim it may add is the next item for itself |
| MuleObject.Mule.ClientRuns | src/mumule.h:246-356 | One operation of start, sync, reset or stop, in place: keeps the same, and touches counters only in the stores of a reset |
| MuleObject.Mule.RunSchedule | src/mumule.h:145-356 | Any legal schedule run on the object; claiming stays exactly-once when the schedule keeps submits out of the window |
| AtomicCell.RunsAreLinear | include/compat-atomic/stdatomic.h:241-358 | Any number of threads on an object that starts as a word: on every run it holds a word, the sequential replay of the operations in the order of their effects, each of which returned the value just before its own effect, and failed swaps are at most (n - 1) times the completed operations |
| AtomicCell.RunIsLinear | include/compat-atomic/stdatomic.h:241-358 | The same invariant kept by every schedule from any linear state |
| AtomicCell.EffectAtReturn | include/compat-atomic/stdatomic.h:344-350 | Each operation takes effect exactly once, at the step that ends it, on the value it returns |
| AtomicCell.RunKeepsFailures | include/compat-atomic/stdatomic.h:344-350 | Failed swaps, and those bound to fail, are at most (n - 1) times the completed operations: the retry loops are lock-free |
| AtomicCell.FailuresAreRetries | include/compat-atomic/stdatomic.h:344-350 | The failures counted are the swaps that go back to their load, each because the object has changed; they leave `expected` as it is |
| AtomicCell.CompletesAlone | include/compat-atomic/stdatomic.h:344-350 | Whatever has happened before, a thread that has the object to itself completes its operation within three steps |
| AtomicCell.WriteBackIsUnseen | include/compat-atomic/stdatomic.h:194-213 | Storing the object's value in `expected` on failure, which sections 7.17.7.4 and 7.17.7.5 of ISO/IEC 9899:2011 describe and this header omits, changes no object value, no effect and no returned value of the fetch loops on any schedule |
| AtomicWords.SubIsExact | include/compat-atomic/stdatomic.h:291-293 | Subtraction as addition of the negated argument is exact modulo 2^w |
| AtomicWords.SignedSub | include/compat-atomic/stdatomic.h:291 | Read as two's complement numbers, the difference is exact whenever it is representable |
| AtomicWords.AddThenSub | include/compat-atomic/stdatomic.h:290-291 | Subtracting what was added restores the object |
| AtomicWords.BitwiseCombines | include/compat-atomic/stdatomic.h:364-398 | The result of and has the bits that both operands have, that of or the bits that at least one has, that of xor the bits in which they differ |
| AtomicWords.BitwiseSums | include/compat-atomic/stdatomic.h:364-398 | On words: and plus or is the sum of the operands, and plus xor is or, and is at most and or at least each first operand |
| AtomicWords.Pow2Values | include/compat-atomic/stdatomic.h:241-263 | The moduli are 2^8, 2^16, 2^32 and 2^64 for the widths of the integer types |
| AtomicWords.WordsHaveLowBits | include/compat-atomic/stdatomic.h:241-263 | A number is below the modulus if and only if none of its bits from position w on is set |
| AtomicWords.BitIsDigit | include/compat-atomic/stdatomic.h:364-398 | Bit i of a number is its i-th binary digit |
| AtomicObject.Atomic.CompareExchangeStrong | include/compat-atomic/stdatomic.h:194-215 | Stores the desired value exactly when the expected one is found |
| AtomicObject.Atomic.FetchAdd | include/compat-atomic/stdatomic.h:241-293 | Returns the old value and stores sum or difference modulo 2^w, as one recorded effect |
| AtomicObject.Atomic.FetchOp | include/compat-atomic/stdatomic.h:344-350 | The do/while template: whatever others complete between a load and its swap, the operation takes effect once, last, on the value it returns; it leaves a word whose bits are the and, or or xor of the bits of that value and the argument |
| AtomicObject.Atomic.Attempt | include/compat-atomic/stdatomic.h:347-348 | One iteration of the template; it succeeds if nobody interferes |
| OnceFlag.RunsOnce | include/compat-threads/threads_win32.h:301-321 | On every run the function is entered at most once, and once any call has returned it has been entered and left exactly once and nobody is inside it |
| OnceFlag.StepKeepsOnce | include/compat-threads/threads_win32.h:311-319 | `status` moves only 0 to 1 to 2, a call returns only after the function has finished, and a call that finds it running waits |
| OnceFlag.SpinnersHaveRunner | include/compat-threads/threads_win32.h:315-318 | While callers spin there is a thread whose next steps set the status to 2 |
| OnceFlag.RunnerReturns | include/compat-threads/threads_win32.h:311-314 | Whatever the others do meanwhile, the caller that runs the function sets the status to 2 and returns after its own remaining steps |
| OnceFlag.CallReturns | include/compat-threads/threads_win32.h:311-319 | Once the status is 2 every call returns after at most two steps of its own, whatever the others do meanwhile |
| OnceFlag.EveryCallEnds | include/compat-threads/threads_win32.h:311-319 | From every state of every run, each call under way can end within four steps: those of the running caller and its own |
| OnceFlag.FirstCallRuns | include/compat-threads/threads_win32.h:311-314 | The first call, undisturbed, runs the function once and returns |
| OnceFlag.SharedFlag.Step | include/compat-threads/threads_win32.h:311-319 | One operation of `call_once`, in place, keeping the invariant |
| PingPong.RunKeepsLockstep | test/latency_atomic_relaxed_barrier_c.c:36-70 | However late each store becomes visible, in order, the counters stay in lockstep on every run: the sender is at most one ahead and no counter lags by more than one store |
| PingPong.ComparisonsAreExact | test/latency_atomic_relaxed_barrier_c.c:43-63 | Comparing 32-bit words decides the true counts, so wrap-around never confuses rounds |
| PingPong.SpinsOrAdvances | test/latency_atomic_relaxed_barrier_c.c:41-66 | Every step either spins or brings both loops closer to their end |
| PingPong.NeverDeadlocks | test/latency_atomic_relaxed_barrier_c.c:41-66 | Unless both loops are done some step is not a spin |
| PingPong.FinalCount | test/latency_atomic_relaxed_barrier_c.c:80-83 | At the end the receiver's word is `iters` modulo 4294967296, which equals `iters` exactly below that number, as for the 10000000 rounds of the program |
| PingPong.Channel.SenderRuns | test/latency_atomic_acquire_release_c.c:41-47 | One operation of `sloop`, in place, keeping lockstep |
| PingPong.Channel.ReceiverRuns | test/latency_atomic_acquire_release_c.c:58-64 | One operation of `rloop`, in place, keeping lockstep |
| PingPong.Channel.RunSchedule | test/latency_atomic_acquire_release_c.c:70-83 | Any schedule of both loops and deliveries; when both have ended the printed count is `iters` modulo 2^32 |

## Left out

- Caller's mutex: `mtx_unlock` at 224 and `mtx_lock` at 261 are steps that never block, so the results
  cover every locking discipline, and progress is claimed without the mutex.
- Return codes other than that of `cnd_timedwait`, and null-pointer checks: constant answers.
- CondVarGate.RunKeepsGate: counters are unbounded integers there, because the range result needs line 233 to
  be avoided; under that condition CondVarWakeups.CountersInRange excludes overflow.
- CondVarAccounting.AccountedExactlyWithout233: assumes that at most INT_MAX/2 waiters are registered at once, the
  bound at which the code itself folds `gone`. CondVarProgress.LockedUpExactly and the part of CondVarDrift.DriftLaw
  about tokens assume the same; the part about waiters does not.
- CondVarHidden.EveryStrayCosts: assumes at most INT_MAX/2 threads, so that no continuation exceeds that bound.
- MuleDrain.DrainsExactly: assumes at least one worker, as the pool is meant to have, and no submit in the window.
- MuleBarrier.SubmitKeepsBarrierExactly, MuleSignal.SubmitIsSignalledExactly, MuleDrain.SubmitIsDrainedExactly: each
  is about one submit followed by any run without further submits.
- `mule_reset` while workers live: its three stores are not one step, so the model calls it only after a stop.
- Wrap-around of the pool's `size_t` counters, and the limit of 8 threads: the model takes any number of
  workers and counters that do not wrap.
- The order in which real condition variables wake pool threads: mutex and condition variables of the pool
  are abstract, and a timed wait returns whenever it likes.
- Deadlines, clocks and their conversions: platform reads and short arithmetic.
- Native Windows branches, thread creation and exit codes, thread-specific storage, `mtx_timedlock`: foreign
  calls and simple scans.
- Weak memory beyond delayed single-writer stores; fences have no effect in a sequentially consistent model.
- `atomic_exchange`, `atomic_flag`, `atomic_is_lock_free` and the `_Generic` tables: one operation each, or no
  state.
- Logging, cpuid and clock programs, and the C++ versions of the handshake.
