/**
 The compare-exchange and the fetch family as methods on one object, written as the header writes
 them; what other threads do between a load and the swap that follows it is a parameter.
 */
module AtomicObject {
  import opened AtomicWords
  import opened AtomicCell

  /** An operation requested by another thread. */
  datatype Request = Request(t: nat, op: Op, arg: nat)

  /** `record` continues `past` with operations of threads other than `me`. */
  ghost predicate OthersSince(past: seq<Effect>, record: seq<Effect>, me: nat) {
    past <= record && forall i :: |past| <= i < |record| ==> record[i].t != me
  }

  /** `record` continues `past` with operations of others and then, if `done`, with `mine`. */
  ghost predicate Continues(past: seq<Effect>, record: seq<Effect>, done: bool, mine: Effect) {
    if done then
      |record| > |past| && record[|record| - 1] == mine && OthersSince(past, record[..|record| - 1], mine.t)
    else
      OthersSince(past, record, mine.t)
  }

  lemma MineIsLast(past: seq<Effect>, record: seq<Effect>, mine: Effect)
    requires OthersSince(past, record, mine.t)
    ensures Continues(past, record + [mine], true, mine)
  {
    assert (record + [mine])[..|record|] == record;
  }

  lemma OthersGoOn(past: seq<Effect>, middle: seq<Effect>, record: seq<Effect>, me: nat)
    requires OthersSince(past, middle, me) && OthersSince(middle, record, me)
    ensures OthersSince(past, record, me)
  {
  }

  /** One more attempt continues what earlier ones have left. */
  lemma GoesOn(past: seq<Effect>, middle: seq<Effect>, record: seq<Effect>, done: bool, mine: Effect)
    requires OthersSince(past, middle, mine.t) && Continues(middle, record, done, mine)
    ensures Continues(past, record, done, mine)
  {
    OthersGoOn(past, middle, if done then record[..|record| - 1] else record, mine.t);
  }

  class Atomic {
    const w: nat
    ghost const v0: nat
    var value: nat
    ghost var record: seq<Effect>

    /** The object holds a word, which is the sequential replay of the record. */
    ghost predicate Valid()
      reads this
    {
      Linear(w, v0, Cell(value, record, 0))
    }

    /** Any word may be the initial value. */
    constructor (w: nat, v: nat)
      requires v < Pow2(w)
      ensures Valid() && this.w == w && value == v && record == []
    {
      this.w, this.v0, this.value := w, v, v;
      this.record := [];
    }

    /** `atomic_compare_exchange_strong` (194-215); `expected` is not written back. */
    method CompareExchangeStrong(expected: nat, desired: nat) returns (ok: bool)
      modifies this`value
      ensures ok == (old(value) == expected)
      ensures value == if ok then desired else old(value)
    {
      var val := value;
      if val == expected {
        value := desired;
      }
      return val == expected;
    }

    /** `atomic_fetch_add` (241-290), and `atomic_fetch_sub` as an addition of `-(arg)` (291). */
    method FetchAdd(ghost t: nat, op: Op, arg: nat) returns (before: nat)
      requires Valid() && (op.Add? || op.Sub?)
      modifies this
      ensures Valid() && before == old(value) && record == old(record) + [Effect(t, op, arg, before)]
      ensures value == if op.Add? then (before + arg) % Pow2(w) else (before - arg) % Pow2(w)
    {
      before := value;
      var addend := if op.Add? then arg else Negated(w, arg);
      value := (before + addend) % Pow2(w);
      ghost var was := Cell(before, record, 0);
      record := record + [Effect(t, op, arg, before)];
      EffectKeepsLinear(w, v0, was, t, op, arg, Cell(value, record, 0));
      if op.Sub? {
        SubIsExact(w, before, arg);
      }
    }

    /** Other threads complete the operations `rs`. */
    method Interfere(rs: seq<Request>, ghost me: nat)
      requires Valid() && forall r :: r in rs ==> r.t != me
      modifies this
      ensures Valid() && OthersSince(old(record), record, me) && (rs == [] ==> value == old(value))
    {
      for k := 0 to |rs|
        invariant Valid() && OthersSince(old(record), record, me) && (k == 0 ==> value == old(value))
      {
        Complete(rs[k]);
      }
    }

    /** Another thread's operation takes effect. */
    method Complete(r: Request)
      requires Valid()
      modifies this
      ensures Valid() && record == old(record) + [Effect(r.t, r.op, r.arg, old(value))]
    {
      ghost var was := Cell(value, record, 0);
      record := record + [Effect(r.t, r.op, r.arg, value)];
      value := Apply(r.op, w, value, r.arg);
      EffectKeepsLinear(w, v0, was, r.t, r.op, r.arg, Cell(value, record, 0));
    }

    /** One iteration of the template: load, compute, and swap if nothing has changed the value. */
    method Attempt(ghost t: nat, op: Op, arg: nat, others: seq<Request>) returns (done: bool, oldval: nat)
      requires Valid() && !op.Add? && !op.Sub? && forall r :: r in others ==> r.t != t
      modifies this
      ensures Valid() && Continues(old(record), record, done, Effect(t, op, arg, oldval))
      ensures (others == [] ==> done) && (done ==> value == Bitwise(op, w, oldval, arg))
      ensures done ==> Combines(op, w, value, oldval, arg)
    {
      BitwiseCombines(op, w, value, arg);
      oldval := value;
      var newval := Bitwise(op, w, oldval, arg);
      Interfere(others, t);
      ghost var was := Cell(value, record, 0);
      done := CompareExchangeStrong(oldval, newval);
      if done {
        ghost var mine := Effect(t, op, arg, oldval);
        MineIsLast(old(record), record, mine);
        record := record + [mine];
        EffectKeepsLinear(w, v0, was, t, op, arg, Cell(value, record, 0));
      }
    }

    /**
     The do/while template of fetch_and, fetch_or and fetch_xor (344-350); `env[k]` is what other
     threads complete between the k-th load and its swap. The operation takes effect once, at the
     successful swap, on the value it returns.
     */
    method FetchOp(ghost t: nat, op: Op, arg: nat, env: seq<seq<Request>>) returns (oldval: nat)
      requires Valid() && !op.Add? && !op.Sub?
      requires forall k, r :: 0 <= k < |env| && r in env[k] ==> r.t != t
      modifies this
      ensures Valid() && Continues(old(record), record, true, Effect(t, op, arg, oldval))
      ensures value == Bitwise(op, w, oldval, arg) && Combines(op, w, value, oldval, arg)
    {
      var k, done := 0, false;
      oldval := value;
      while !done
        invariant Valid() && 0 <= k <= |env| + 1 && (k == |env| + 1 ==> done)
        invariant Continues(old(record), record, done, Effect(t, op, arg, oldval))
        invariant done ==> value == Bitwise(op, w, oldval, arg) && Combines(op, w, value, oldval, arg)
        decreases |env| + 1 - k
      {
        ghost var middle := record;
        done, oldval := Attempt(t, op, arg, if k < |env| then env[k] else []);
        GoesOn(old(record), middle, record, done, Effect(t, op, arg, oldval));
        k := k + 1;
      }
    }
  }
}
