/** Each blocked client receives exactly one value, over whole runs: what has been handed to it is
    what it has received or what is still in its channel, and it is never served again. */
module Deliveries {
  import opened StoreModel
  import opened BlockingLists

  /** A client that was handed v has v, in its hand or in its channel, and waits no more. */
  ghost predicate Settled(d: State, received: map<Chan, seq<string>>, p: (Chan, string), channels: set<Chan>) {
    && p.0 in channels && Got(received, p.0) + Mail(d, p.0) == [p.1]
    && forall key, i :: !Waits(d, key, i, p.0)
  }

  predicate OncePerClient(deliveries: seq<(Chan, string)>) {
    forall i, j :: 0 <= i < j < |deliveries| ==> deliveries[i].0 != deliveries[j].0
  }

  ghost predicate Exactly(d: State, received: map<Chan, seq<string>>, deliveries: seq<(Chan, string)>,
                          channels: set<Chan>) {
    && (forall i :: 0 <= i < |deliveries| ==> Settled(d, received, deliveries[i], channels))
    && OncePerClient(deliveries)
    && (forall key, i, ch :: Waits(d, key, i, ch) ==> Got(received, ch) == [])
    && (forall ch :: ch !in channels ==> Got(received, ch) == [])
  }

  ghost predicate DeliversOnce(w: World) { Exactly(w.d, w.received, w.deliveries, w.channels) }

  // ---- Pushing ------------------------------------------------------------------------------

  /** Who waits after a hand-off waited before, further back on that key. */
  lemma WaitedBefore(d: State, d': State, key: string, values: seq<string>, key1: string, i: int, ch: Chan)
    requires AfterHandOff(d, d', key, values) && Waits(d', key1, i, ch)
    ensures Waits(d, key1, if key1 == key then i + Handed(d, key, values) else i, ch)
  {
  }

  lemma OldSettled(d: State, d': State, key: string, values: seq<string>, received: map<Chan, seq<string>>,
                   p: (Chan, string), channels: set<Chan>)
    requires AfterHandOff(d, d', key, values) && Settled(d, received, p, channels)
    ensures Settled(d', received, p, channels)
  {
    var queue, n := Waiters(d, key), Handed(d, key, values);
    assert p.0 !in queue[..n] by {
      forall i | 0 <= i < n ensures queue[i] != p.0 { assert !Waits(d, key, i, p.0); }
    }
    forall key1, i ensures !Waits(d', key1, i, p.0) {
      if Waits(d', key1, i, p.0) { WaitedBefore(d, d', key, values, key1, i, p.0); }
    }
  }

  lemma NewSettled(d: State, d': State, key: string, values: seq<string>, received: map<Chan, seq<string>>,
                   j: nat, channels: set<Chan>)
    requires AfterHandOff(d, d', key, values) && WaitersOpen(d, channels) && j < Handed(d, key, values)
    requires Got(received, Waiters(d, key)[j]) == []
    ensures Settled(d', received, (Waiters(d, key)[j], values[j]), channels)
  {
    var ch := Waiters(d, key)[j];
    assert Waits(d, key, j, ch);
    assert Got(received, ch) + Mail(d', ch) == Mail(d', ch) == [values[j]];
    forall key1, i ensures !Waits(d', key1, i, ch) {
      if Waits(d', key1, i, ch) { WaitedBefore(d, d', key, values, key1, i, ch); }
    }
  }

  lemma StillUnserved(d: State, d': State, key: string, values: seq<string>, received: map<Chan, seq<string>>)
    requires AfterHandOff(d, d', key, values)
    requires forall key1, i, ch :: Waits(d, key1, i, ch) ==> Got(received, ch) == []
    ensures forall key1, i, ch :: Waits(d', key1, i, ch) ==> Got(received, ch) == []
  {
    forall key1, i, ch | Waits(d', key1, i, ch) ensures Got(received, ch) == [] {
      WaitedBefore(d, d', key, values, key1, i, ch);
    }
  }

  lemma ServedOnce(d: State, key: string, n: nat, values: seq<string>, received: map<Chan, seq<string>>,
                   deliveries: seq<(Chan, string)>, channels: set<Chan>)
    requires WaitersOpen(d, channels) && OncePerClient(deliveries) && n <= |Waiters(d, key)| && n <= |values|
    requires forall i :: 0 <= i < |deliveries| ==> Settled(d, received, deliveries[i], channels)
    ensures OncePerClient(deliveries + Pairs(Waiters(d, key)[..n], values[..n]))
  {
    var queue, m := Waiters(d, key), |deliveries|;
    var all := deliveries + Pairs(queue[..n], values[..n]);
    forall i, j | 0 <= i < j < |all| ensures all[i].0 != all[j].0 {
      if j >= m {
        assert Waits(d, key, j - m, queue[j - m]);
        if i >= m {
          assert Waits(d, key, i - m, queue[i - m]);
        } else {
          assert Settled(d, received, deliveries[i], channels);
        }
      }
    }
  }

  /** A hand-off at a key: its deliveries are recorded or, at another key than ours, are not. */
  lemma HandOffDelivers(d: State, d': State, key: string, values: seq<string>, received: map<Chan, seq<string>>,
                        deliveries: seq<(Chan, string)>, channels: set<Chan>)
    requires AfterHandOff(d, d', key, values) && WaitersOpen(d, channels) && Exactly(d, received, deliveries, channels)
    ensures var n := Handed(d, key, values);
            && Exactly(d', received, deliveries, channels)
            && Exactly(d', received, deliveries + Pairs(Waiters(d, key)[..n], values[..n]), channels)
  {
    var n, queue, m := Handed(d, key, values), Waiters(d, key), |deliveries|;
    var all := deliveries + Pairs(queue[..n], values[..n]);
    StillUnserved(d, d', key, values, received);
    ServedOnce(d, key, n, values, received, deliveries, channels);
    forall i | 0 <= i < |all| ensures Settled(d', received, all[i], channels) {
      if i < m {
        OldSettled(d, d', key, values, received, deliveries[i], channels);
      } else {
        assert Waits(d, key, i - m, queue[i - m]);
        NewSettled(d, d', key, values, received, i - m, channels);
      }
    }
    forall i | 0 <= i < m ensures Settled(d', received, deliveries[i], channels) { assert all[i] == deliveries[i]; }
  }

  lemma SameQueues(d: State, d': State, received: map<Chan, seq<string>>, deliveries: seq<(Chan, string)>,
                   channels: set<Chan>)
    requires Exactly(d, received, deliveries, channels) && d'.waiters == d.waiters && d'.mail == d.mail
    ensures Exactly(d', received, deliveries, channels)
  {
    assert forall key, i, ch :: Waits(d', key, i, ch) ==> Waits(d, key, i, ch);
    forall i | 0 <= i < |deliveries| ensures Settled(d', received, deliveries[i], channels) {
      assert Settled(d, received, deliveries[i], channels);
      assert Mail(d', deliveries[i].0) == Mail(d, deliveries[i].0);
    }
  }

  lemma PushDelivers(w: World, key: string, values: seq<string>, k: string)
    requires Inv(w, k) && DeliversOnce(w)
    ensures DeliversOnce(Step(w, Push(key, values), k))
  {
    var d', w' := HandOff(w.d, key, values, []).0, Step(w, Push(key, values), k);
    HandOffInOrder(w.d, key, values, [], w.channels);
    HandOffDelivers(w.d, d', key, values, w.received, w.deliveries, w.channels);
    PushParts(w, key, values, k);
    SameQueues(d', w'.d, w.received, w'.deliveries, w.channels);
  }

  // ---- Popping, blocking, receiving -----------------------------------------------------------

  lemma PopDelivers(w: World, key: string, count: int, k: string)
    requires DeliversOnce(w)
    ensures DeliversOnce(Step(w, Pop(key, count), k))
  {
    PopQueues(w.d, key, count);
    SameQueues(w.d, Step(w, Pop(key, count), k).d, w.received, w.deliveries, w.channels);
  }

  lemma MoreChannels(d: State, received: map<Chan, seq<string>>, deliveries: seq<(Chan, string)>, channels: set<Chan>,
                     ch: Chan)
    requires Exactly(d, received, deliveries, channels)
    ensures Exactly(d, received, deliveries, channels + {ch})
  {
    forall i | 0 <= i < |deliveries| ensures Settled(d, received, deliveries[i], channels + {ch}) {
      assert Settled(d, received, deliveries[i], channels);
    }
  }

  lemma JoinDelivers(d: State, d': State, key: string, ch: Chan, received: map<Chan, seq<string>>,
                     deliveries: seq<(Chan, string)>, channels: set<Chan>)
    requires WaitersOpen(d, channels) && Exactly(d, received, deliveries, channels) && ch !in channels
    requires d' == SetWaiters(d, key, Waiters(d, key) + [ch])
    ensures Exactly(d', received, deliveries, channels + {ch})
  {
    RegisterStep(d, d', key, ch, channels);
    forall key1, i, c | Waits(d', key1, i, c) ensures c == ch || Waits(d, key1, i, c) {}
    forall i | 0 <= i < |deliveries| ensures Settled(d', received, deliveries[i], channels + {ch}) {
      assert Settled(d, received, deliveries[i], channels);
    }
  }

  lemma BlockDelivers(w: World, key: string, ch: Chan, k: string)
    requires Inv(w, k) && DeliversOnce(w) && ch !in w.channels
    ensures DeliversOnce(Step(w, BlockingPop(key, ch), k))
  {
    var d' := BLPop(w.d, key, ch).0;
    if ListAt(w.d, key) != [] {
      SameQueues(w.d, d', w.received, w.deliveries, w.channels);
      MoreChannels(d', w.received, w.deliveries, w.channels, ch);
    } else {
      JoinDelivers(w.d, d', key, ch, w.received, w.deliveries, w.channels);
    }
  }

  lemma ReceiveMoves(d: State, received: map<Chan, seq<string>>, ch: Chan, c: Chan)
    requires Mail(d, ch) != []
    ensures Got(Took(received, ch, Mail(d, ch)[0]), c) + Mail(ReceiveValue(d, ch), c) == Got(received, c) + Mail(d, c)
    ensures c != ch ==> Got(Took(received, ch, Mail(d, ch)[0]), c) == Got(received, c)
  {
    if c == ch { assert Mail(d, ch) == [Mail(d, ch)[0]] + Mail(d, ch)[1..]; }
  }

  lemma ReceiveDelivers(w: World, ch: Chan, k: string)
    requires Inv(w, k) && DeliversOnce(w)
    ensures DeliversOnce(Step(w, Receive(ch), k))
  {
    var w' := Step(w, Receive(ch), k);
    if Mail(w.d, ch) != [] {
      assert w'.d.waiters == w.d.waiters && w'.received == Took(w.received, ch, Mail(w.d, ch)[0]);
      assert forall key, i, c :: Waits(w'.d, key, i, c) ==> Waits(w.d, key, i, c);
      forall i | 0 <= i < |w.deliveries| ensures Settled(w'.d, w'.received, w.deliveries[i], w.channels) {
        assert Settled(w.d, w.received, w.deliveries[i], w.channels);
        ReceiveMoves(w.d, w.received, ch, w.deliveries[i].0);
      }
      forall c | c != ch ensures Got(w'.received, c) == Got(w.received, c) { ReceiveMoves(w.d, w.received, ch, c); }
    }
  }

  lemma LeaveDelivers(w: World, key: string, ch: Chan, k: string)
    requires DeliversOnce(w)
    ensures DeliversOnce(Step(w, Leave(key, ch), k))
  {
    var d' := CleanUpWaiter(w.d, key, ch);
    assert forall c :: Mail(d', c) == Mail(w.d, c);
    forall key1, i, c | Waits(d', key1, i, c) ensures Got(w.received, c) == [] {
      WaitedBeforeLeaving(w.d, key, ch, key1, i, c);
    }
    forall i | 0 <= i < |w.deliveries| ensures Settled(d', w.received, w.deliveries[i], w.channels) {
      StillSettled(w, key, ch, i);
    }
  }

  lemma StillSettled(w: World, key: string, ch: Chan, j: nat)
    requires DeliversOnce(w) && j < |w.deliveries|
    ensures Settled(CleanUpWaiter(w.d, key, ch), w.received, w.deliveries[j], w.channels)
  {
    var d', p := CleanUpWaiter(w.d, key, ch), w.deliveries[j];
    assert Settled(w.d, w.received, p, w.channels);
    forall key1, i ensures !Waits(d', key1, i, p.0) {
      if Waits(d', key1, i, p.0) { WaitedBeforeLeaving(w.d, key, ch, key1, i, p.0); }
    }
  }

  // ---- Clients that left ----------------------------------------------------------------------

  ghost predicate WaitsNowhere(d: State, ch: Chan) { forall key, i :: !Waits(d, key, i, ch) }

  lemma StaysOut(w: World, op: Op, k: string, ch: Chan)
    requires Inv(w, k) && WaitsNowhere(w.d, ch) && ch in w.channels && (op.BlockingPop? ==> op.ch !in w.channels)
    ensures WaitsNowhere(Step(w, op, k).d, ch) && ch in Step(w, op, k).channels
  {
    var d' := Step(w, op, k).d;
    match op
    case Push(key, values) => PushStaysOut(w, key, values, k, ch);
    case Pop(key, count) =>
      PopQueues(w.d, key, count);
      assert forall key1, i :: Waits(d', key1, i, ch) ==> Waits(w.d, key1, i, ch);
    case BlockingPop(key, c) => BlockStaysOut(w, key, c, k, ch);
    case Receive(c) => assert forall key1, i :: Waits(d', key1, i, ch) ==> Waits(w.d, key1, i, ch);
    case Leave(key, c) =>
      forall key1, i ensures !Waits(d', key1, i, ch) {
        if Waits(d', key1, i, ch) { WaitedBeforeLeaving(w.d, key, c, key1, i, ch); }
      }
  }

  lemma PushStaysOut(w: World, key: string, values: seq<string>, k: string, ch: Chan)
    requires Inv(w, k) && WaitsNowhere(w.d, ch)
    ensures WaitsNowhere(Step(w, Push(key, values), k).d, ch)
  {
    var handed, d' := HandOff(w.d, key, values, []).0, Step(w, Push(key, values), k).d;
    HandOffInOrder(w.d, key, values, [], w.channels);
    PushParts(w, key, values, k);
    forall key1, i ensures !Waits(d', key1, i, ch) {
      if Waits(d', key1, i, ch) {
        assert Waits(handed, key1, i, ch);
        WaitedBefore(w.d, handed, key, values, key1, i, ch);
      }
    }
  }

  lemma BlockStaysOut(w: World, key: string, c: Chan, k: string, ch: Chan)
    requires Inv(w, k) && WaitsNowhere(w.d, ch) && ch in w.channels && c !in w.channels
    ensures WaitsNowhere(Step(w, BlockingPop(key, c), k).d, ch)
  {
    var d' := BLPop(w.d, key, c).0;
    if ListAt(w.d, key) == [] { RegisterStep(w.d, d', key, c, w.channels); }
    forall key1, i ensures !Waits(d', key1, i, ch) {
      if Waits(d', key1, i, ch) { assert Waits(w.d, key1, if i < |Waiters(w.d, key1)| then i else 0, ch); }
    }
  }

  /** A client that was waiting at its key only and left it waits nowhere in any later state: no
      value is ever handed to it. */
  lemma {:induction false} LeftForGood(w: World, ops: seq<Op>, k: string, ch: Chan)
    requires Inv(w, k) && FreshChannels(w, ops, k) && ch in w.channels && WaitsNowhere(w.d, ch)
    ensures WaitsNowhere(RunOps(w, ops, k).d, ch)
    decreases |ops|
  {
    if ops != [] {
      StaysOut(w, ops[0], k, ch);
      StepKeeps(w, ops[0], k);
      LeftForGood(Step(w, ops[0], k), ops[1..], k, ch);
    }
  }

  lemma LeavingLeaves(w: World, key: string, ch: Chan, k: string)
    requires Inv(w, k) && forall key1, i :: Waits(w.d, key1, i, ch) ==> key1 == key
    ensures WaitsNowhere(Step(w, Leave(key, ch), k).d, ch)
  {
    var d' := CleanUpWaiter(w.d, key, ch);
    LeavesForGood(w.d, key, ch, w.channels);
    forall key1, i ensures !Waits(d', key1, i, ch) {
      if Waits(d', key1, i, ch) {
        WaitedBeforeLeaving(w.d, key, ch, key1, i, ch);
      }
    }
  }

  /** A value handed over before its client leaves the queue is lost: the client has answered null,
      and the value stays in its channel. */
  lemma TimeoutLosesValue(key: string, ch: Chan, value: string)
    ensures var w := RunOps(World(EMPTY, [], [], [], [], {}, map[]),
                            [BlockingPop(key, ch), Push(key, [value]), Leave(key, ch)], key);
            && w.pushed == w.consumed == [value] && ListAt(w.d, key) == []
            && Mail(w.d, ch) == [value] && Got(w.received, ch) == []
  {
    var w0 := World(EMPTY, [], [], [], [], {}, map[]);
    var w1 := Step(w0, BlockingPop(key, ch), key);
    ThreeOps(w0, BlockingPop(key, ch), Push(key, [value]), Leave(key, ch), key);
    assert w1.d == SetWaiters(EMPTY, key, [ch]) by { assert Waiters(EMPTY, key) + [ch] == [ch]; }
    ServedThenGone(w1, key, ch, value);
  }

  lemma ThreeOps(w: World, a: Op, b: Op, c: Op, k: string)
    ensures RunOps(w, [a, b, c], k) == Step(Step(Step(w, a, k), b, k), c, k)
  {
    assert [a, b, c][1..] == [b, c] && [b, c][1..] == [c] && [c][1..] == [];
    var w1, w2 := Step(w, a, k), Step(Step(w, a, k), b, k);
    assert RunOps(w2, [c], k) == RunOps(Step(w2, c, k), [], k) == Step(w2, c, k);
    assert RunOps(w1, [b, c], k) == RunOps(w2, [c], k);
  }

  lemma ServedThenGone(w: World, key: string, ch: Chan, value: string)
    requires w.d == SetWaiters(EMPTY, key, [ch]) && w.pushed == w.consumed == [] && w.received == map[]
    ensures var v := Step(Step(w, Push(key, [value]), key), Leave(key, ch), key);
            && v.pushed == v.consumed == [value] && ListAt(v.d, key) == []
            && Mail(v.d, ch) == [value] && Got(v.received, ch) == []
  {
    HandsOne(w.d, key, ch, value);
    assert Waiters(w.d, key) == [ch] && Handed(w.d, key, [value]) == 1;
    assert [] + [value][..1] == [value] && [] + [value] == [value];
    var w2 := Step(w, Push(key, [value]), key);
    assert w2.d == Send(SetWaiters(w.d, key, []), ch, value);
    assert Mail(w2.d, ch) == [] + [value] == [value];
    assert CleanUpWaiter(w2.d, key, ch).mail == w2.d.mail && CleanUpWaiter(w2.d, key, ch).cache == w2.d.cache;
  }

  lemma HandsOne(d: State, key: string, ch: Chan, value: string)
    requires d == SetWaiters(EMPTY, key, [ch])
    ensures HandOff(d, key, [value], []) == (Send(SetWaiters(d, key, []), ch, value), [])
  {
    assert Waiters(d, key) == [ch] && [value][1..] == [] && [ch][1..] == [];
  }

  /** In every run and for every key: every client that was handed a value has received that value
      or finds it in its channel, and nothing else; it occurs once among the deliveries, and waits
      at no key. A client that waits has received nothing. */
  lemma {:induction false} RunsDeliverOnce(w: World, ops: seq<Op>, k: string)
    requires Inv(w, k) && DeliversOnce(w) && FreshChannels(w, ops, k)
    ensures Inv(RunOps(w, ops, k), k) && DeliversOnce(RunOps(w, ops, k))
    decreases |ops|
  {
    if ops != [] {
      StepKeeps(w, ops[0], k);
      StepDelivers(w, ops[0], k);
      RunsDeliverOnce(Step(w, ops[0], k), ops[1..], k);
    }
  }

  lemma StepDelivers(w: World, op: Op, k: string)
    requires Inv(w, k) && DeliversOnce(w) && (op.BlockingPop? ==> op.ch !in w.channels)
    ensures DeliversOnce(Step(w, op, k))
  {
    match op
    case Push(key, values) => PushDelivers(w, key, values, k);
    case Pop(key, count) => PopDelivers(w, key, count, k);
    case BlockingPop(key, ch) => BlockDelivers(w, key, ch, k);
    case Receive(ch) => ReceiveDelivers(w, ch, k);
    case Leave(key, ch) => LeaveDelivers(w, key, ch, k);
  }

  lemma StartDelivers()
    ensures DeliversOnce(World(EMPTY, [], [], [], [], {}, map[]))
  {
    assert forall key, i, ch :: !Waits(EMPTY, key, i, ch);
  }

  /** No client is registered twice: those served and those waiting are all different. */
  lemma RegisteredOnce(w: World, k: string, i: nat, j: nat)
    requires Inv(w, k) && DeliversOnce(w) && i < j < |w.registered|
    ensures w.registered[i] != w.registered[j]
  {
    var m := |w.deliveries|;
    var queue := Waiters(w.d, k);
    assert w.registered == Served(w.deliveries) + queue;
    if j >= m {
      assert Waits(w.d, k, j - m, queue[j - m]);
      if i >= m {
        assert Waits(w.d, k, i - m, queue[i - m]);
      } else {
        assert Settled(w.d, w.received, w.deliveries[i], w.channels);
      }
    }
  }
}
