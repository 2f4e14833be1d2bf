/**
 Any number of threads using the fetch family on one atomic object: and, or and xor retry a
 compare-and-swap (344-350), add and sub are one exchange-add (241-293). The record lists the
 operations in the order in which they took effect.
 */
module AtomicCell {
  import opened Tally
  import opened AtomicWords

  /** An operation that has taken effect, with the value it returned. */
  datatype Effect = Effect(t: nat, op: Op, arg: nat, returned: nat)

  datatype Cell = Cell(value: nat, record: seq<Effect>, failed: nat)

  datatype Pc =
    | Idle
    | Load(op: Op, arg: nat, expected: nat)     // 347; `expected` is what `oldval` still holds
    | Swap(op: Op, arg: nat, expected: nat)     // 348
    | ExchangeAdd(op: Op, arg: nat)             // 241-248

  datatype State = State(cell: Cell, th: seq<Pc>)

  datatype Event = Call(t: nat, op: Op, arg: nat) | Step(t: nat)

  datatype After = After(cell: Cell, p: Pc)

  function Init(v0: nat, n: nat): State {
    State(Cell(v0, [], 0), seq(n, _ => Idle))
  }

  function Begin(op: Op, arg: nat): Pc {
    if op.Add? || op.Sub? then ExchangeAdd(op, arg) else Load(op, arg, 0)
  }

  /**
   One step of thread `t` on an object of `w` bits. `writesBack` says whether a failed
   compare-and-swap stores the object's value in `expected`, as the standard has it; the emulation
   does not.
   */
  function Act(c: Cell, w: nat, writesBack: bool, t: nat, p: Pc): After
    requires !p.Idle?
  {
    match p
    case Load(op, arg, _) => After(c, Swap(op, arg, c.value))
    case Swap(op, arg, expected) =>
      if c.value == expected then
        After(c.(value := Apply(op, w, expected, arg), record := c.record + [Effect(t, op, arg, expected)]), Idle)
      else
        After(c.(failed := c.failed + 1), Load(op, arg, if writesBack then c.value else expected))
    case ExchangeAdd(op, arg) =>
      After(c.(value := Apply(op, w, c.value, arg), record := c.record + [Effect(t, op, arg, c.value)]), Idle)
  }

  predicate Enabled(s: State, e: Event) {
    e.t < |s.th| && (e.Call? <==> s.th[e.t].Idle?)
  }

  function Next(s: State, w: nat, writesBack: bool, e: Event): State
    requires Enabled(s, e)
  {
    match e
    case Call(t, op, arg) => s.(th := s.th[t := Begin(op, arg)])
    case Step(t) => var a := Act(s.cell, w, writesBack, t, s.th[t]); State(a.cell, s.th[t := a.p])
  }

  predicate Legal(s: State, w: nat, writesBack: bool, es: seq<Event>)
    decreases |es|
  {
    es == [] || (Enabled(s, es[0]) && Legal(Next(s, w, writesBack, es[0]), w, writesBack, es[1..]))
  }

  function Exec(s: State, w: nat, writesBack: bool, es: seq<Event>): State
    requires Legal(s, w, writesBack, es)
    decreases |es|
  {
    if es == [] then s else Exec(Next(s, w, writesBack, es[0]), w, writesBack, es[1..])
  }

  // ----- every operation is an atomic read-modify-write

  /** The value after performing the recorded operations one after another. */
  function Replay(w: nat, v0: nat, record: seq<Effect>): nat {
    if record == [] then v0
    else var last := record[|record| - 1];
         Apply(last.op, w, Replay(w, v0, record[..|record| - 1]), last.arg)
  }

  /** The object holds a word, the sequential replay, and each operation returned the value just before it. */
  ghost predicate Linear(w: nat, v0: nat, c: Cell) {
    && c.value < Pow2(w)
    && c.value == Replay(w, v0, c.record)
    && forall i :: 0 <= i < |c.record| ==> c.record[i].returned == Replay(w, v0, c.record[..i])
  }

  /** Recording one more operation on the present value keeps the record linear. */
  lemma EffectKeepsLinear(w: nat, v0: nat, c: Cell, t: nat, op: Op, arg: nat, c': Cell)
    requires Linear(w, v0, c)
    requires c'.value == Apply(op, w, c.value, arg) && c'.record == c.record + [Effect(t, op, arg, c.value)]
    ensures Linear(w, v0, c')
  {
    assert c'.record[..|c.record|] == c.record;
    ApplyInRange(op, w, c.value, arg);
    forall i | 0 <= i < |c'.record|
      ensures c'.record[i].returned == Replay(w, v0, c'.record[..i])
    {
      assert c'.record[..i] == c.record[..i];
    }
  }

  lemma StepKeepsLinear(s: State, w: nat, writesBack: bool, e: Event, v0: nat)
    requires Linear(w, v0, s.cell) && Enabled(s, e)
    ensures Linear(w, v0, Next(s, w, writesBack, e).cell)
  {
    if e.Step? {
      var c' := Act(s.cell, w, writesBack, e.t, s.th[e.t]).cell;
      if c'.record != s.cell.record {
        EffectKeepsLinear(w, v0, s.cell, e.t, s.th[e.t].op, s.th[e.t].arg, c');
      }
    }
  }

  /** Holds on every run of any number of threads. */
  lemma {:induction false} RunIsLinear(s: State, w: nat, writesBack: bool, es: seq<Event>, v0: nat)
    requires Linear(w, v0, s.cell) && Legal(s, w, writesBack, es)
    ensures Linear(w, v0, Exec(s, w, writesBack, es).cell)
    decreases |es|
  {
    if es != [] {
      StepKeepsLinear(s, w, writesBack, es[0], v0);
      RunIsLinear(Next(s, w, writesBack, es[0]), w, writesBack, es[1..], v0);
    }
  }

  /** The operation a thread is inside, if any. */
  predicate Inside(p: Pc, op: Op, arg: nat) {
    !p.Idle? && p.op == op && p.arg == arg
  }

  /** An operation takes effect exactly once: at the step that ends it, under its own name. */
  lemma EffectAtReturn(c: Cell, w: nat, writesBack: bool, t: nat, p: Pc, op: Op, arg: nat)
    requires Inside(p, op, arg)
    ensures var a := Act(c, w, writesBack, t, p);
      if a.p.Idle? then a.cell.record == c.record + [Effect(t, op, arg, c.value)]
      else Inside(a.p, op, arg) && a.cell.record == c.record && a.cell.value == c.value
  {
  }

  // ----- lock-freedom

  /** The thread's compare-and-swap would fail now. */
  function StaleAt(v: nat): Pc -> nat {
    (p: Pc) => if p.Swap? && p.expected != v then 1 else 0
  }

  /** Failed swaps, and those bound to fail, are at most n - 1 for each completed operation. */
  ghost predicate FailuresBounded(s: State) {
    s.cell.failed + Sum(s.th, StaleAt(s.cell.value)) + |s.cell.record| <= |s.th| * |s.cell.record|
  }

  lemma {:induction false} StaleExceptOne(th: seq<Pc>, t: nat, v: nat)
    requires t < |th| && th[t].Idle?
    ensures Sum(th, StaleAt(v)) + 1 <= |th|
  {
    if t == 0 {
      SumBounded(th[1..], StaleAt(v), 1);
    } else {
      StaleExceptOne(th[1..], t - 1, v);
    }
  }

  lemma Grows(n: nat, k: nat)
    ensures n * (k + 1) == n * k + n
  {
  }

  /** The step is a swap that fails and goes back to its load. */
  predicate Retries(s: State, w: nat, writesBack: bool, e: Event) {
    Enabled(s, e) && s.th[e.t].Swap? && !Next(s, w, writesBack, e).th[e.t].Idle?
  }

  /** `failed` counts the retries, and in this emulation they leave `expected` as it is. */
  lemma FailuresAreRetries(s: State, w: nat, writesBack: bool, e: Event)
    requires Enabled(s, e)
    ensures var s' := Next(s, w, writesBack, e);
      && s'.cell.failed == s.cell.failed + (if Retries(s, w, writesBack, e) then 1 else 0)
      && (Retries(s, w, writesBack, e) ==> s'.th[e.t].Load? && s.th[e.t].expected != s.cell.value)
      && (Retries(s, w, writesBack, e) ==>
            s'.th[e.t].expected == if writesBack then s.cell.value else s.th[e.t].expected)
  {
  }

  lemma EffectKeepsFailures(s: State, w: nat, writesBack: bool, t: nat)
    requires FailuresBounded(s) && Enabled(s, Step(t)) && Next(s, w, writesBack, Step(t)).th[t].Idle?
    ensures FailuresBounded(Next(s, w, writesBack, Step(t)))
  {
    var s' := Next(s, w, writesBack, Step(t));
    EffectAtReturn(s.cell, w, writesBack, t, s.th[t], s.th[t].op, s.th[t].arg);
    StaleExceptOne(s'.th, t, s'.cell.value);
    Grows(|s.th|, |s.cell.record|);
  }

  /** Steps that complete nothing leave object and record alone, and a failure uses up a stale swap. */
  lemma OtherKeepsFailures(s: State, w: nat, writesBack: bool, e: Event)
    requires FailuresBounded(s) && Enabled(s, e) && !Next(s, w, writesBack, e).th[e.t].Idle?
    ensures FailuresBounded(Next(s, w, writesBack, e))
  {
    var s' := Next(s, w, writesBack, e);
    SumUpdate(s.th, e.t, s'.th[e.t], StaleAt(s.cell.value));
    assert s'.cell.record == s.cell.record && s'.cell.value == s.cell.value;
  }

  lemma StepKeepsFailures(s: State, w: nat, writesBack: bool, e: Event)
    requires FailuresBounded(s) && Enabled(s, e)
    ensures FailuresBounded(Next(s, w, writesBack, e))
  {
    if Next(s, w, writesBack, e).th[e.t].Idle? {
      EffectKeepsFailures(s, w, writesBack, e.t);
    } else {
      OtherKeepsFailures(s, w, writesBack, e);
    }
  }

  lemma {:induction false} RunKeepsFailures(s: State, w: nat, writesBack: bool, es: seq<Event>)
    requires FailuresBounded(s) && Legal(s, w, writesBack, es)
    ensures FailuresBounded(Exec(s, w, writesBack, es)) && |Exec(s, w, writesBack, es).th| == |s.th|
    decreases |es|
  {
    if es != [] {
      StepKeepsFailures(s, w, writesBack, es[0]);
      RunKeepsFailures(Next(s, w, writesBack, es[0]), w, writesBack, es[1..]);
    }
  }

  /** Steps of its own after which an undisturbed operation at `p` has completed. */
  function ToComplete(v: nat, p: Pc): nat {
    match p
    case Idle => 0
    case Load(_, _, _) => 2
    case Swap(_, _, expected) => if expected == v then 1 else 3
    case ExchangeAdd(_, _) => 1
  }

  /** Every step that does not complete an operation brings it closer to completing, if nobody interferes. */
  lemma OwnStepComesCloser(c: Cell, w: nat, writesBack: bool, t: nat, p: Pc)
    requires !p.Idle?
    ensures var a := Act(c, w, writesBack, t, p);
      a.p.Idle? || (a.cell.value == c.value && ToComplete(a.cell.value, a.p) < ToComplete(c.value, p))
    ensures ToComplete(c.value, p) <= 3
  {
  }

  /** A thread that has the object to itself completes its operation within three steps. */
  lemma {:induction false} CompletesAlone(s: State, w: nat, writesBack: bool, t: nat) returns (es: seq<Event>)
    requires t < |s.th| && !s.th[t].Idle?
    ensures |es| <= ToComplete(s.cell.value, s.th[t]) <= 3 && (forall e :: e in es ==> e == Step(t))
    ensures Legal(s, w, writesBack, es)
    ensures t < |Exec(s, w, writesBack, es).th| && Exec(s, w, writesBack, es).th[t].Idle?
    decreases ToComplete(s.cell.value, s.th[t])
  {
    OwnStepComesCloser(s.cell, w, writesBack, t, s.th[t]);
    var s' := Next(s, w, writesBack, Step(t));
    es := [];
    if !s'.th[t].Idle? {
      es := CompletesAlone(s', w, writesBack, t);
    }
    assert ([Step(t)] + es)[1..] == es;
    es := [Step(t)] + es;
  }

  // ----- from the start

  lemma InitIsLinear(w: nat, v0: nat, n: nat)
    requires v0 < Pow2(w)
    ensures Linear(w, v0, Init(v0, n).cell) && FailuresBounded(Init(v0, n))
  {
    SumZero(Init(v0, n).th, StaleAt(v0));
  }

  /**
   Any number of threads on an object that starts as the word `v0`: on every run the object holds the
   replay of the recorded operations, each of which returned its predecessor's value, and all failed
   swaps together are at most n - 1 for each operation completed.
   */
  lemma RunsAreLinear(w: nat, v0: nat, n: nat, writesBack: bool, es: seq<Event>)
    requires v0 < Pow2(w) && Legal(Init(v0, n), w, writesBack, es)
    ensures var c := Exec(Init(v0, n), w, writesBack, es).cell;
      && c.value == Replay(w, v0, c.record) < Pow2(w)
      && (forall i :: 0 <= i < |c.record| ==> c.record[i].returned == Replay(w, v0, c.record[..i]))
      && c.failed + |c.record| <= n * |c.record|
  {
    InitIsLinear(w, v0, n);
    RunIsLinear(Init(v0, n), w, writesBack, es, v0);
    RunKeepsFailures(Init(v0, n), w, writesBack, es);
  }

  // ----- the missing write-back does not matter

  /** A thread's state without the value that the next load overwrites. */
  function Visible(p: Pc): Pc {
    match p
    case Load(op, arg, _) => Load(op, arg, 0)
    case _ => p
  }

  ghost predicate Alike(s: State, z: State) {
    s.cell == z.cell && |s.th| == |z.th| && forall t :: 0 <= t < |s.th| ==> Visible(s.th[t]) == Visible(z.th[t])
  }

  lemma StepsAlike(s: State, z: State, w: nat, e: Event)
    requires Alike(s, z) && Enabled(s, e)
    ensures Enabled(z, e) && Alike(Next(s, w, true, e), Next(z, w, false, e))
  {
    assert Visible(s.th[e.t]) == Visible(z.th[e.t]);
  }

  /**
   With and without storing the object's value in `expected` on failure, every schedule gives the
   same object, the same record of effects and returned values, and the same failures.
   */
  lemma {:induction false} WriteBackIsUnseen(s: State, z: State, w: nat, es: seq<Event>)
    requires Alike(s, z) && Legal(s, w, true, es)
    ensures Legal(z, w, false, es) && Alike(Exec(s, w, true, es), Exec(z, w, false, es))
    decreases |es|
  {
    if es != [] {
      StepsAlike(s, z, w, es[0]);
      WriteBackIsUnseen(Next(s, w, true, es[0]), Next(z, w, false, es[0]), w, es[1..]);
    }
  }
}
