/**
 The two-thread handshake of the latency programs (test/latency_atomic_relaxed_barrier_c.c and
 test/latency_atomic_acquire_release_c.c): each thread owns one 32-bit counter and watches the
 other's. A store goes into its owner's buffer and becomes visible to the other thread at any later
 moment, in order; the owner sees its own latest store. Stores that are visible at once are the runs
 on which every store is followed by its delivery.
 */
module PingPong {

  /** Unsigned 32-bit counters wrap around. */
  const WRAP: nat := 0x1_0000_0000

  function Wrap(n: int): nat { n % WRAP }

  /** A counter: the owner's value, the other thread's view of it, and the stores in between. */
  datatype Counter = Counter(own: nat, seen: nat, buffer: seq<nat>)

  datatype Sender = SendLoad | SendSpin(x: nat) | SendStore(x: nat) | SendDone            // 42, 43-45, 47
  datatype Receiver = RecvLoad | RecvSpin(x: nat) | RecvStore(y: nat) | RecvDone          // 60, 61-63, 65

  /** `sent` and `received` count the stores made, `sentSeen` and `receivedSeen` those delivered. */
  datatype State = State(
    s: Counter, r: Counter, sender: Sender, receiver: Receiver,
    sent: nat, received: nat, sentSeen: nat, receivedSeen: nat)

  datatype Event = Send | Receive | DeliverSent | DeliverReceived

  function Store(c: Counter, v: nat): Counter {
    c.(own := v, buffer := c.buffer + [v])
  }

  function Deliver(c: Counter): Counter
    requires c.buffer != []
  {
    c.(seen := c.buffer[0], buffer := c.buffer[1..])
  }

  function Init(iters: nat): State {
    State(Counter(0, 0, []), Counter(0, 0, []),
          if iters > 0 then SendLoad else SendDone, if iters > 0 then RecvLoad else RecvDone, 0, 0, 0, 0)
  }

  predicate Enabled(z: State, e: Event) {
    match e
    case Send => !z.sender.SendDone?
    case Receive => !z.receiver.RecvDone?
    case DeliverSent => z.s.buffer != []
    case DeliverReceived => z.r.buffer != []
  }

  /** One step of `sloop` (41-48). */
  function SendStep(z: State, iters: nat): State
    requires !z.sender.SendDone?
  {
    match z.sender
    case SendLoad => z.(sender := SendSpin(z.s.own))
    case SendSpin(x) => if x != z.r.seen then z else z.(sender := SendStore(x))
    case SendStore(x) =>
      z.(s := Store(z.s, Wrap(x + 1)), sent := z.sent + 1,
         sender := if z.sent + 1 < iters then SendLoad else SendDone)
  }

  /** One step of `rloop` (59-66). */
  function ReceiveStep(z: State, iters: nat): State
    requires !z.receiver.RecvDone?
  {
    match z.receiver
    case RecvLoad => z.(receiver := RecvSpin(z.r.own))
    case RecvSpin(x) => if x == z.s.seen then z else z.(receiver := RecvStore(z.s.seen))
    case RecvStore(y) =>
      z.(r := Store(z.r, y), received := z.received + 1,
         receiver := if z.received + 1 < iters then RecvLoad else RecvDone)
  }

  function Next(z: State, iters: nat, e: Event): State
    requires Enabled(z, e)
  {
    match e
    case Send => SendStep(z, iters)
    case Receive => ReceiveStep(z, iters)
    case DeliverSent => z.(s := Deliver(z.s), sentSeen := z.sentSeen + 1)
    case DeliverReceived => z.(r := Deliver(z.r), receivedSeen := z.receivedSeen + 1)
  }

  predicate Legal(z: State, iters: nat, es: seq<Event>)
    decreases |es|
  {
    es == [] || (Enabled(z, es[0]) && Legal(Next(z, iters, es[0]), iters, es[1..]))
  }

  function Exec(z: State, iters: nat, es: seq<Event>): State
    requires Legal(z, iters, es)
    decreases |es|
  {
    if es == [] then z else Exec(Next(z, iters, es[0]), iters, es[1..])
  }

  // ----- lockstep

  /** The words of a counter are its true counts modulo 2^32, and it lags by at most one store. */
  ghost predicate Tracks(c: Counter, made: nat, delivered: nat) {
    && c.own == Wrap(made) && c.seen == Wrap(delivered)
    && made == delivered + |c.buffer| && |c.buffer| <= 1
    && (c.buffer != [] ==> c.buffer[0] == Wrap(made))
  }

  ghost predicate Lockstep(z: State, iters: nat) {
    && Tracks(z.s, z.sent, z.sentSeen) && Tracks(z.r, z.received, z.receivedSeen)
    && z.received <= z.sent <= z.received + 1
    && z.received <= z.sentSeen
    && z.sent <= z.receivedSeen + 1
    && (match z.sender
        case SendLoad => z.sent < iters
        case SendSpin(x) => z.sent < iters && x == Wrap(z.sent)
        case SendStore(x) => z.sent < iters && x == Wrap(z.sent) && z.receivedSeen == z.received == z.sent
        case SendDone => z.sent == iters)
    && (match z.receiver
        case RecvLoad => z.received < iters
        case RecvSpin(x) => z.received < iters && x == Wrap(z.received)
        case RecvStore(y) => z.received < iters && y == Wrap(z.received + 1) && z.sentSeen == z.sent == z.received + 1
        case RecvDone => z.received == iters)
  }

  /** Words of counts that differ by at most one tell the counts apart. */
  lemma WordsDecide(a: nat, b: nat)
    requires b <= a <= b + 1
    ensures Wrap(a) == Wrap(b) <==> a == b
  {
    if a == b + 1 {
      assert Wrap(a) == if Wrap(b) + 1 == WRAP then 0 else Wrap(b) + 1;
    }
  }

  lemma WrapNext(n: nat)
    ensures Wrap(Wrap(n) + 1) == Wrap(n + 1)
  {
  }

  lemma SendKeepsLockstep(z: State, iters: nat)
    requires Lockstep(z, iters) && !z.sender.SendDone?
    ensures Lockstep(SendStep(z, iters), iters)
  {
    WordsDecide(z.sent, z.receivedSeen);
    WrapNext(z.sent);
  }

  lemma ReceiveKeepsLockstep(z: State, iters: nat)
    requires Lockstep(z, iters) && !z.receiver.RecvDone?
    ensures Lockstep(ReceiveStep(z, iters), iters)
  {
    WordsDecide(z.sentSeen, z.received);
  }

  lemma StepKeepsLockstep(z: State, iters: nat, e: Event)
    requires Lockstep(z, iters) && Enabled(z, e)
    ensures Lockstep(Next(z, iters, e), iters)
  {
    match e
    case Send => SendKeepsLockstep(z, iters);
    case Receive => ReceiveKeepsLockstep(z, iters);
    case _ =>
  }

  /** However late stores arrive, the counters stay in lockstep on every run, for any `iters`. */
  lemma {:induction false} RunKeepsLockstep(z: State, iters: nat, es: seq<Event>)
    requires Lockstep(z, iters) && Legal(z, iters, es)
    ensures Lockstep(Exec(z, iters, es), iters)
    decreases |es|
  {
    if es != [] {
      StepKeepsLockstep(z, iters, es[0]);
      RunKeepsLockstep(Next(z, iters, es[0]), iters, es[1..]);
    }
  }

  /** The comparisons of 45 and 63 decide the true counts, although they compare words. */
  lemma ComparisonsAreExact(z: State, iters: nat)
    requires Lockstep(z, iters)
    ensures z.sender.SendSpin? ==> (z.sender.x == z.r.seen <==> z.receivedSeen == z.sent)
    ensures z.receiver.RecvSpin? ==> (z.receiver.x != z.s.seen <==> z.sentSeen == z.received + 1)
  {
    WordsDecide(z.sent, z.receivedSeen);
    WordsDecide(z.sentSeen, z.received);
  }

  // ----- the end

  /** When both loops are done the receiver's word is `iters` modulo 2^32: the test prints PASS below 2^32. */
  lemma FinalCount(z: State, iters: nat)
    requires Lockstep(z, iters) && z.sender.SendDone? && z.receiver.RecvDone?
    ensures z.sent == z.received == iters && z.r.own == Wrap(iters)
    ensures z.r.own == iters % 0x1_0000_0000 && (z.r.own == iters <==> iters < 0x1_0000_0000)
    ensures iters == 10000000 ==> z.r.own == 10000000
  {
  }

  function SenderToGo(z: State, iters: nat): int {
    match z.sender
    case SendLoad => 6 * (iters - z.sent)
    case SendSpin(_) => 6 * (iters - z.sent) - 1
    case SendStore(_) => 6 * (iters - z.sent) - 2
    case SendDone => 0
  }

  function ReceiverToGo(z: State, iters: nat): int {
    match z.receiver
    case RecvLoad => 6 * (iters - z.received)
    case RecvSpin(_) => 6 * (iters - z.received) - 1
    case RecvStore(_) => 6 * (iters - z.received) - 2
    case RecvDone => 0
  }

  function ToGo(z: State, iters: nat): int {
    SenderToGo(z, iters) + ReceiverToGo(z, iters) + |z.s.buffer| + |z.r.buffer|
  }

  lemma ToGoCounts(z: State, iters: nat)
    requires Lockstep(z, iters)
    ensures SenderToGo(z, iters) >= 0 && ReceiverToGo(z, iters) >= 0
  {
  }

  lemma SenderAdvances(z: State, iters: nat)
    requires Lockstep(z, iters) && !z.sender.SendDone?
    ensures SendStep(z, iters) == z || ToGo(SendStep(z, iters), iters) < ToGo(z, iters)
    ensures SendStep(z, iters) == z ==> z.sender.SendSpin?
  {
  }

  lemma ReceiverAdvances(z: State, iters: nat)
    requires Lockstep(z, iters) && !z.receiver.RecvDone?
    ensures ReceiveStep(z, iters) == z || ToGo(ReceiveStep(z, iters), iters) < ToGo(z, iters)
    ensures ReceiveStep(z, iters) == z ==> z.receiver.RecvSpin?
  {
  }

  /** Every step either finds its counter unchanged and spins, or brings both loops closer to the end. */
  lemma SpinsOrAdvances(z: State, iters: nat, e: Event)
    requires Lockstep(z, iters) && Enabled(z, e)
    ensures Next(z, iters, e) == z || 0 <= ToGo(Next(z, iters, e), iters) < ToGo(z, iters)
    ensures Next(z, iters, e) == z ==> z.sender.SendSpin? || z.receiver.RecvSpin?
  {
    StepKeepsLockstep(z, iters, e);
    ToGoCounts(Next(z, iters, e), iters);
    match e
    case Send => SenderAdvances(z, iters);
    case Receive => ReceiverAdvances(z, iters);
    case _ =>
  }

  /** Unless both loops are done, some step is not a spin: the handshake cannot deadlock. */
  lemma NeverDeadlocks(z: State, iters: nat) returns (e: Event)
    requires Lockstep(z, iters) && !(z.sender.SendDone? && z.receiver.RecvDone?)
    ensures Enabled(z, e) && ToGo(Next(z, iters, e), iters) < ToGo(z, iters)
  {
    ComparisonsAreExact(z, iters);
    if z.s.buffer != [] {
      e := DeliverSent;
    } else if z.r.buffer != [] {
      e := DeliverReceived;
    } else if z.sent == z.received {
      e := Send;
    } else {
      e := Receive;
    }
    SpinsOrAdvances(z, iters, e);
  }

  // ----- the two loops as methods on shared counters

  class Channel {
    const iters: nat
    var sctr: Counter
    var rctr: Counter
    var sender: Sender
    var receiver: Receiver
    ghost var sent: nat
    ghost var received: nat
    ghost var sentSeen: nat
    ghost var receivedSeen: nat
    var i: nat
    var j: nat

    ghost function Snapshot(): State
      reads this
    {
      State(sctr, rctr, sender, receiver, sent, received, sentSeen, receivedSeen)
    }

    /** The loop counters of `sloop` and `rloop` count the stores. */
    ghost predicate Valid()
      reads this
    {
      i == sent && j == received && Lockstep(Snapshot(), iters)
    }

    constructor (iters: nat)
      ensures this.iters == iters && Snapshot() == Init(iters) && Valid()
    {
      this.iters := iters;
      sctr, rctr := Counter(0, 0, []), Counter(0, 0, []);
      sender := if iters > 0 then SendLoad else SendDone;
      receiver := if iters > 0 then RecvLoad else RecvDone;
      i, j := 0, 0;
      sent, received, sentSeen, receivedSeen := 0, 0, 0, 0;
    }

    /** One operation of `sloop`. */
    method SenderRuns()
      requires Valid() && !sender.SendDone?
      modifies this
      ensures Valid() && Snapshot() == Next(old(Snapshot()), iters, Send)
    {
      StepKeepsLockstep(Snapshot(), iters, Send);
      match sender {
        case SendLoad =>
          sender := SendSpin(sctr.own);
        case SendSpin(x) =>
          if x == rctr.seen {
            sender := SendStore(x);
          }
        case SendStore(x) =>
          sctr := Store(sctr, Wrap(x + 1));
          i := i + 1;
          sent := sent + 1;
          sender := if i < iters then SendLoad else SendDone;
      }
    }

    /** One operation of `rloop`. */
    method ReceiverRuns()
      requires Valid() && !receiver.RecvDone?
      modifies this
      ensures Valid() && Snapshot() == Next(old(Snapshot()), iters, Receive)
    {
      StepKeepsLockstep(Snapshot(), iters, Receive);
      match receiver {
        case RecvLoad =>
          receiver := RecvSpin(rctr.own);
        case RecvSpin(x) =>
          if x != sctr.seen {
            receiver := RecvStore(sctr.seen);
          }
        case RecvStore(y) =>
          rctr := Store(rctr, y);
          j := j + 1;
          received := received + 1;
          receiver := if j < iters then RecvLoad else RecvDone;
      }
    }

    /** The oldest store in a buffer becomes visible. */
    method StoreArrives(ofSender: bool)
      requires Valid() && (if ofSender then sctr.buffer else rctr.buffer) != []
      modifies this
      ensures Valid()
      ensures Snapshot() == Next(old(Snapshot()), iters, if ofSender then DeliverSent else DeliverReceived)
    {
      StepKeepsLockstep(Snapshot(), iters, if ofSender then DeliverSent else DeliverReceived);
      if ofSender {
        sctr := Deliver(sctr);
        sentSeen := sentSeen + 1;
      } else {
        rctr := Deliver(rctr);
        receivedSeen := receivedSeen + 1;
      }
    }

    /** `run` (72-85): under any legal schedule that finishes both loops, the count printed is `iters` modulo 2^32. */
    method RunSchedule(es: seq<Event>) returns (count: nat)
      requires Valid() && Legal(Snapshot(), iters, es)
      modifies this
      ensures Valid() && Snapshot() == Exec(old(Snapshot()), iters, es) && count == rctr.own
      ensures sender.SendDone? && receiver.RecvDone? ==> count == Wrap(iters)
    {
      ghost var z0 := Snapshot();
      for k := 0 to |es|
        invariant Valid() && Legal(Snapshot(), iters, es[k..])
        invariant Exec(Snapshot(), iters, es[k..]) == Exec(z0, iters, es)
      {
        assert es[k..][1..] == es[k + 1..];
        match es[k]
        case Send => SenderRuns();
        case Receive => ReceiverRuns();
        case DeliverSent => StoreArrives(true);
        case DeliverReceived => StoreArrives(false);
      }
      count := rctr.own;
      if sender.SendDone? && receiver.RecvDone? {
        FinalCount(Snapshot(), iters);
      }
    }
  }
}
