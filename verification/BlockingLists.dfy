/** RPUSH, LPOP and BLPOP, with and without timeout, make every list a FIFO queue: the values
    consumed, whether popped from the list or handed straight to a blocked client, are the values
    pushed, in order. Each command is one step here; a timeout is another. */
module BlockingLists {
  import opened StoreModel
  import C = Commands
  import opened Departure

  datatype Op =
    | Push(key: string, values: seq<string>)
    | Pop(key: string, count: int)
    | BlockingPop(key: string, ch: Chan)   // make(chan string, 1) gives a channel of its own
    | Receive(ch: Chan)                    // a blocked client takes its value
    | Leave(key: string, ch: Chan)         // its time is over: it has answered null and leaves the queue

  /** handleRPUSH: hand values to waiters, append the rest. */
  function PushCommand(d: State, key: string, values: seq<string>): State {
    var (handed, remaining) := HandOff(d, key, values, []);
    if remaining == [] then handed else RPush(handed, key, remaining)
  }

  /** How many values handleLPOP takes. */
  function Taken(d: State, key: string, count: int): nat {
    var n := |ListAt(d, key)|;
    if count <= 0 then 0 else if count > n then n else count
  }

  function PopCommand(d: State, key: string, count: int): State {
    if Taken(d, key, count) == 0 then d else SetValue(d, key, List(ListAt(d, key)[Taken(d, key, count)..]))
  }

  /** On a key without a deadline these are what the handlers of RPUSH and LPOP do. */
  lemma PushIsRPUSH(d: State, key: string, values: seq<string>, now: int)
    requires key !in d.expiry
    ensures PushCommand(d, key, values) == C.PushTo(d, false, key, values, now).0
  {
    assert Get(d, key, now).0 == d;
  }

  lemma PopIsLPOP(d: State, key: string, count: int, now: int)
    requires key !in d.expiry
    ensures PopCommand(d, key, count) == C.LPop(d, key, count, now).0
  {
    assert Get(d, key, now) == (d, Lookup(d.cache, key));
    if ListAt(d, key) == [] { assert C.TakeFront(Lookup(d.cache, key), count).1.None?; }
  }

  function Handed(d: State, key: string, values: seq<string>): (n: nat)
    ensures n <= |values| && n <= |Waiters(d, key)|
  {
    if |Waiters(d, key)| < |values| then |Waiters(d, key)| else |values|
  }

  /** The history of one key beside the state of the store. */
  datatype World = World(
    d: State,
    pushed: seq<string>,                // all values pushed, in order
    consumed: seq<string>,              // all values popped or handed over, in order
    registered: seq<Chan>,              // the clients that blocked and have not left unserved, in order
    deliveries: seq<(Chan, string)>,    // who was handed what, in order
    channels: set<Chan>,                // every channel made so far, on any key
    received: map<Chan, seq<string>>)   // what each client has taken off its channel

  function Pairs(chans: seq<Chan>, values: seq<string>): (p: seq<(Chan, string)>)
    requires |chans| == |values|
    ensures |p| == |chans| && forall i :: 0 <= i < |p| ==> p[i] == (chans[i], values[i])
  {
    seq(|chans|, i requires 0 <= i < |chans| => (chans[i], values[i]))
  }

  function Got(received: map<Chan, seq<string>>, ch: Chan): seq<string> {
    if ch in received then received[ch] else []
  }

  function Took(received: map<Chan, seq<string>>, ch: Chan, value: string): map<Chan, seq<string>> {
    received[ch := Got(received, ch) + [value]]
  }

  function Step(w: World, op: Op, k: string): World {
    match op
    case Push(key, values) =>
      var n := Handed(w.d, key, values);
      if key != k then w.(d := PushCommand(w.d, key, values))
      else w.(d := PushCommand(w.d, key, values),
              pushed := w.pushed + values,
              consumed := w.consumed + values[..n],
              deliveries := w.deliveries + Pairs(Waiters(w.d, key)[..n], values[..n]))
    case Pop(key, count) =>
      if key != k then w.(d := PopCommand(w.d, key, count))
      else w.(d := PopCommand(w.d, key, count), consumed := w.consumed + ListAt(w.d, key)[..Taken(w.d, key, count)])
    case BlockingPop(key, ch) =>
      var (d', value) := BLPop(w.d, key, ch);
      var w' := w.(d := d', channels := w.channels + {ch});
      if key != k then w'
      else if value.Some? then w'.(consumed := w.consumed + [value.value])
      else w'.(registered := w.registered + [ch])
    case Receive(ch) =>
      w.(d := ReceiveValue(w.d, ch),
           received := if Mail(w.d, ch) == [] then w.received else Took(w.received, ch, Mail(w.d, ch)[0]))
    case Leave(key, ch) =>
      w.(d := CleanUpWaiter(w.d, key, ch),
         registered := if key == k then Without(w.registered, |w.deliveries|, ch) else w.registered)
  }

  /** The clients registered after the first n, which have been served, without ch. */
  function Without(registered: seq<Chan>, n: nat, ch: Chan): seq<Chan> {
    if n > |registered| then registered else registered[..n] + RemoveFirst(registered[n..], ch)
  }

  function RunOps(w: World, ops: seq<Op>, k: string): World
    decreases |ops|
  {
    if ops == [] then w else RunOps(Step(w, ops[0], k), ops[1..], k)
  }

  // ---- The invariant ---------------------------------------------------------------------

  predicate Waits(d: State, key: string, i: int, ch: Chan) {
    0 <= i < |Waiters(d, key)| && Waiters(d, key)[i] == ch
  }

  /** The waiters are distinct open channels that have never been sent anything: a send to the
      first of them finds the buffer of capacity one empty and does not block. */
  ghost predicate WaitersOpen(d: State, channels: set<Chan>) {
    && (forall key, i, ch :: Waits(d, key, i, ch) ==> ch in channels && Mail(d, ch) == [])
    && (forall key, i, key', j, ch :: Waits(d, key, i, ch) && Waits(d, key', j, ch) ==> key == key' && i == j)
    && (forall ch :: ch !in channels ==> Mail(d, ch) == [])
  }

  function Served(deliveries: seq<(Chan, string)>): (s: seq<Chan>)
    ensures |s| == |deliveries| && forall i :: 0 <= i < |s| ==> s[i] == deliveries[i].0
  {
    seq(|deliveries|, i requires 0 <= i < |deliveries| => deliveries[i].0)
  }

  ghost predicate Fifo(w: World, k: string) {
    && (k in w.d.cache ==> w.d.cache[k].List?)
    && w.consumed + ListAt(w.d, k) == w.pushed
    && (Waiters(w.d, k) != [] ==> ListAt(w.d, k) == [])
    && Served(w.deliveries) + Waiters(w.d, k) == w.registered
  }

  ghost predicate Inv(w: World, k: string) {
    Fifo(w, k) && WaitersOpen(w.d, w.channels)
  }

  // ---- Hand-off --------------------------------------------------------------------------

  lemma SendFirst(d: State, key: string, value: string, channels: set<Chan>)
    requires WaitersOpen(d, channels) && Waiters(d, key) != []
    ensures var queue := Waiters(d, key);
            var d' := Send(SetWaiters(d, key, queue[1..]), queue[0], value);
            && WaitersOpen(d', channels)
            && Waiters(d', key) == queue[1..]
            && (forall other :: other != key ==> Waiters(d', other) == Waiters(d, other))
            && Mail(d', queue[0]) == [value]
            && (forall ch :: ch != queue[0] ==> Mail(d', ch) == Mail(d, ch))
            && d'.cache == d.cache
  {
    var queue := Waiters(d, key);
    var d' := Send(SetWaiters(d, key, queue[1..]), queue[0], value);
    assert Waits(d, key, 0, queue[0]);
    assert forall other :: other != key ==> Waiters(d', other) == Waiters(d, other);
    forall key1, i, ch | Waits(d', key1, i, ch) ensures Waits(d, key1, if key1 == key then i + 1 else i, ch) {}
  }

  /** The loop gives the first values to the first waiters, one each, in order. */
  lemma {:induction false} HandOffInOrder(d: State, key: string, values: seq<string>, done: seq<string>,
                                          channels: set<Chan>)
    requires WaitersOpen(d, channels) && (done == [] || Waiters(d, key) == [])
    ensures var (d', remaining) := HandOff(d, key, values, done);
            remaining == done + values[Handed(d, key, values)..] && AfterHandOff(d, d', key, values)
            && WaitersOpen(d', channels)
    decreases |values|
  {
    var queue := Waiters(d, key);
    if values == [] {
      assert values[0..] == [] && done + [] == done;
    } else if queue == [] {
      HandOffInOrder(d, key, values[1..], done + [values[0]], channels);
      assert done + [values[0]] + values[1..] == done + values;
      assert values[0..] == values && values[1..][0..] == values[1..];
    } else {
      var d1 := Send(SetWaiters(d, key, queue[1..]), queue[0], values[0]);
      SendFirst(d, key, values[0], channels);
      HandOffInOrder(d1, key, values[1..], done, channels);
      assert values[1..][Handed(d1, key, values[1..])..] == values[Handed(d, key, values)..];
      FirstIsNotAgain(d, key, channels);
      HandOffCompose(d, d1, HandOff(d1, key, values[1..], done).0, key, values);
    }
  }

  ghost predicate AfterHandOff(d: State, d': State, key: string, values: seq<string>) {
    var n, queue := Handed(d, key, values), Waiters(d, key);
    && Waiters(d', key) == queue[n..]
    && (forall other :: other != key ==> Waiters(d', other) == Waiters(d, other))
    && (forall i :: 0 <= i < n ==> Mail(d', queue[i]) == [values[i]])
    && (forall ch :: ch !in queue[..n] ==> Mail(d', ch) == Mail(d, ch))
    && d'.cache == d.cache
  }

  lemma HandOffCompose(d: State, d1: State, d': State, key: string, values: seq<string>)
    requires Waiters(d, key) != [] && values != [] && Waiters(d, key)[0] !in Waiters(d, key)[1..]
    requires d1.cache == d.cache && Waiters(d1, key) == Waiters(d, key)[1..]
    requires forall other :: other != key ==> Waiters(d1, other) == Waiters(d, other)
    requires Mail(d1, Waiters(d, key)[0]) == [values[0]]
    requires forall ch :: ch != Waiters(d, key)[0] ==> Mail(d1, ch) == Mail(d, ch)
    requires AfterHandOff(d1, d', key, values[1..])
    ensures AfterHandOff(d, d', key, values)
  {
    var queue, n := Waiters(d, key), Handed(d, key, values);
    assert Handed(d1, key, values[1..]) == n - 1;
    assert Waiters(d', key) == queue[n..] by { assert queue[1..][n - 1..] == queue[n..]; }
    MailCompose(d, d1, d', queue, values, n);
  }

  lemma FirstIsNotAgain(d: State, key: string, channels: set<Chan>)
    requires WaitersOpen(d, channels) && Waiters(d, key) != []
    ensures Waiters(d, key)[0] !in Waiters(d, key)[1..]
  {
    var queue := Waiters(d, key);
    forall i | 1 <= i < |queue| ensures queue[i] != queue[0] {
      assert Waits(d, key, 0, queue[0]) && Waits(d, key, i, queue[i]);
    }
  }

  lemma MailCompose(d: State, d1: State, d': State, queue: seq<Chan>, values: seq<string>, n: nat)
    requires 0 < n <= |queue| && n <= |values| && queue[0] !in queue[1..]
    requires Mail(d1, queue[0]) == [values[0]]
    requires forall ch :: ch != queue[0] ==> Mail(d1, ch) == Mail(d, ch)
    requires forall i :: 0 <= i < n - 1 ==> Mail(d', queue[1..][i]) == [values[1..][i]]
    requires forall ch :: ch !in queue[1..][..n - 1] ==> Mail(d', ch) == Mail(d1, ch)
    ensures forall i :: 0 <= i < n ==> Mail(d', queue[i]) == [values[i]]
    ensures forall ch :: ch !in queue[..n] ==> Mail(d', ch) == Mail(d, ch)
  {
    assert queue[..n] == [queue[0]] + queue[1..][..n - 1];
    forall i | 0 <= i < n ensures Mail(d', queue[i]) == [values[i]] {
      if i > 0 { assert queue[1..][i - 1] == queue[i] && values[1..][i - 1] == values[i]; }
    }
  }

  // ---- Each command keeps the invariant ------------------------------------------------------

  lemma SameWaiters(d: State, d': State, channels: set<Chan>)
    requires WaitersOpen(d, channels) && d'.waiters == d.waiters && d'.mail == d.mail
    ensures WaitersOpen(d', channels)
  {
    assert forall key, i, ch :: Waits(d', key, i, ch) ==> Waits(d, key, i, ch);
  }

  /** A command on another key leaves the history and the state of k alone. */
  lemma FifoElsewhere(w: World, w': World, k: string)
    requires Fifo(w, k) && Lookup(w'.d.cache, k) == Lookup(w.d.cache, k) && Waiters(w'.d, k) == Waiters(w.d, k)
    requires w'.pushed == w.pushed && w'.consumed == w.consumed && w'.registered == w.registered
    requires w'.deliveries == w.deliveries
    ensures Fifo(w', k)
  {
  }

  lemma PushQueues(d: State, key: string, values: seq<string>)
    ensures var handed := HandOff(d, key, values, []).0;
            PushCommand(d, key, values).waiters == handed.waiters && PushCommand(d, key, values).mail == handed.mail
  {
  }

  lemma PushStep(w: World, key: string, values: seq<string>, k: string)
    requires Inv(w, k)
    ensures Inv(Step(w, Push(key, values), k), k)
  {
    PushIsOpen(w.d, key, values, w.channels);
    PushIsFifo(w, key, values, k);
  }

  lemma PushIsOpen(d: State, key: string, values: seq<string>, channels: set<Chan>)
    requires WaitersOpen(d, channels)
    ensures WaitersOpen(PushCommand(d, key, values), channels)
  {
    HandOffInOrder(d, key, values, [], channels);
    PushQueues(d, key, values);
    SameWaiters(HandOff(d, key, values, []).0, PushCommand(d, key, values), channels);
  }

  lemma PushIsFifo(w: World, key: string, values: seq<string>, k: string)
    requires Inv(w, k)
    ensures Fifo(Step(w, Push(key, values), k), k)
  {
    HandOffInOrder(w.d, key, values, [], w.channels);
    if key == k { PushHere(w, values, k); } else { PushElsewhere(w, key, values, k); }
  }

  lemma PushElsewhere(w: World, key: string, values: seq<string>, k: string)
    requires Fifo(w, k) && key != k
    requires HandOff(w.d, key, values, []).0.cache == w.d.cache
    requires Waiters(HandOff(w.d, key, values, []).0, k) == Waiters(w.d, k)
    ensures Fifo(Step(w, Push(key, values), k), k)
  {
    var w' := Step(w, Push(key, values), k);
    PushFrame(w.d, key, values, k);
    FifoElsewhere(w, w', k);
  }

  lemma PushFrame(d: State, key: string, values: seq<string>, k: string)
    requires key != k
    ensures var handed, d' := HandOff(d, key, values, []).0, PushCommand(d, key, values);
            Lookup(d'.cache, k) == Lookup(handed.cache, k) && d'.waiters == handed.waiters
  {
  }

  lemma PushHere(w: World, values: seq<string>, k: string)
    requires Fifo(w, k)
    requires AfterHandOff(w.d, HandOff(w.d, k, values, []).0, k, values)
    requires HandOff(w.d, k, values, []).1 == [] + values[Handed(w.d, k, values)..]
    ensures Fifo(Step(w, Push(k, values), k), k)
  {
    var n, queue := Handed(w.d, k, values), Waiters(w.d, k);
    var w' := Step(w, Push(k, values), k);
    assert [] + values[n..] == values[n..];
    PushParts(w, k, values, k);
    PushValues(w.d, k, values, n);
    ServedMore(w.deliveries, queue[..n], values[..n]);
    FifoAfterPush(w, w', values, n, k);
  }

  lemma ServedMore(deliveries: seq<(Chan, string)>, chans: seq<Chan>, values: seq<string>)
    requires |chans| == |values|
    ensures Served(deliveries + Pairs(chans, values)) == Served(deliveries) + chans
  {
  }

  lemma PushValues(d: State, k: string, values: seq<string>, n: nat)
    requires n == Handed(d, k, values) && AfterHandOff(d, HandOff(d, k, values, []).0, k, values)
    requires HandOff(d, k, values, []).1 == values[n..] && (k in d.cache ==> d.cache[k].List?)
    ensures var d' := PushCommand(d, k, values);
            && (k in d'.cache ==> d'.cache[k].List?)
            && ListAt(d', k) == ListAt(d, k) + values[n..] && Waiters(d', k) == Waiters(d, k)[n..]
  {
    assert ListAt(d, k) + [] == ListAt(d, k);
  }

  lemma FifoAfterPush(w: World, w': World, values: seq<string>, n: nat, k: string)
    requires n <= |values| && n <= |Waiters(w.d, k)| && (n < |values| ==> n == |Waiters(w.d, k)|)
    requires Fifo(w, k) && w'.registered == w.registered
    requires w'.pushed == w.pushed + values && w'.consumed == w.consumed + values[..n]
    requires k in w'.d.cache ==> w'.d.cache[k].List?
    requires ListAt(w'.d, k) == ListAt(w.d, k) + values[n..]
    requires Waiters(w'.d, k) == Waiters(w.d, k)[n..]
    requires Served(w'.deliveries) == Served(w.deliveries) + Waiters(w.d, k)[..n]
    ensures Fifo(w', k)
  {
    Rejoin(Served(w.deliveries), Waiters(w.d, k), n);
    PushedInOrder(w.consumed, ListAt(w.d, k), values, n);
  }

  lemma Rejoin<T>(front: seq<T>, back: seq<T>, n: nat)
    requires n <= |back|
    ensures front + back[..n] + back[n..] == front + back
  {
    assert back[..n] + back[n..] == back;
  }

  lemma PushedInOrder(consumed: seq<string>, items: seq<string>, values: seq<string>, n: nat)
    requires n <= |values| && (items == [] || n == 0)
    ensures consumed + values[..n] + (items + values[n..]) == consumed + items + values
  {
    if n == 0 {
      assert consumed + [] + (items + values) == consumed + items + values;
    } else {
      Rejoin(consumed, values, n);
    }
  }

  lemma PopQueues(d: State, key: string, count: int)
    ensures PopCommand(d, key, count).waiters == d.waiters && PopCommand(d, key, count).mail == d.mail
  {
  }

  lemma PopStep(w: World, key: string, count: int, k: string)
    requires Inv(w, k)
    ensures Inv(Step(w, Pop(key, count), k), k)
  {
    PopQueues(w.d, key, count);
    SameWaiters(w.d, Step(w, Pop(key, count), k).d, w.channels);
    PopIsFifo(w, key, count, k);
  }

  lemma PopValues(d: State, key: string, count: int, k: string)
    ensures key == k && (k in d.cache ==> d.cache[k].List?) ==>
              var d' := PopCommand(d, key, count);
              (k in d'.cache ==> d'.cache[k].List?) && ListAt(d', k) == ListAt(d, k)[Taken(d, k, count)..]
    ensures key != k ==> Lookup(PopCommand(d, key, count).cache, k) == Lookup(d.cache, k)
  {
  }

  lemma PopIsFifo(w: World, key: string, count: int, k: string)
    requires Fifo(w, k)
    ensures Fifo(Step(w, Pop(key, count), k), k)
  {
    if key == k { PopHere(w, count, k); } else { PopElsewhere(w, key, count, k); }
  }

  lemma PopElsewhere(w: World, key: string, count: int, k: string)
    requires Fifo(w, k) && key != k
    ensures Fifo(Step(w, Pop(key, count), k), k)
  {
    PopQueues(w.d, key, count);
    PopValues(w.d, key, count, k);
    FifoElsewhere(w, Step(w, Pop(key, count), k), k);
  }

  lemma PopHere(w: World, count: int, k: string)
    requires Fifo(w, k)
    ensures Fifo(Step(w, Pop(k, count), k), k)
  {
    PopParts(w, count, k);
    PoppedInOrder(w, Step(w, Pop(k, count), k), k, Taken(w.d, k, count));
  }

  /** The first n values of the list have moved to the end of the consumed ones. */
  predicate Popped(w: World, w': World, k: string, n: nat) {
    && n <= |ListAt(w.d, k)| && (k in w'.d.cache ==> w'.d.cache[k].List?)
    && ListAt(w'.d, k) == ListAt(w.d, k)[n..] && Waiters(w'.d, k) == Waiters(w.d, k)
    && w'.consumed == w.consumed + ListAt(w.d, k)[..n] && w'.pushed == w.pushed
    && w'.registered == w.registered && w'.deliveries == w.deliveries
  }

  lemma PopParts(w: World, count: int, k: string)
    requires k in w.d.cache ==> w.d.cache[k].List?
    ensures Popped(w, Step(w, Pop(k, count), k), k, Taken(w.d, k, count))
  {
    PopQueues(w.d, k, count);
    PopValues(w.d, k, count, k);
  }

  lemma PoppedInOrder(w: World, w': World, k: string, n: nat)
    requires Fifo(w, k) && Popped(w, w', k, n)
    ensures Fifo(w', k)
  {
    Rejoin(w.consumed, ListAt(w.d, k), n);
  }

  lemma BlockStep(w: World, key: string, ch: Chan, k: string)
    requires Inv(w, k) && ch !in w.channels
    ensures Inv(Step(w, BlockingPop(key, ch), k), k)
  {
    BlockIsOpen(w.d, key, ch, w.channels);
    BlockIsFifo(w, key, ch, k);
  }

  lemma BlockIsOpen(d: State, key: string, ch: Chan, channels: set<Chan>)
    requires WaitersOpen(d, channels) && ch !in channels
    ensures WaitersOpen(BLPop(d, key, ch).0, channels + {ch})
  {
    if ListAt(d, key) != [] {
      SameWaiters(d, BLPop(d, key, ch).0, channels);
      OpenMore(BLPop(d, key, ch).0, channels, ch);
    } else {
      RegisterStep(d, BLPop(d, key, ch).0, key, ch, channels);
    }
  }

  lemma OpenMore(d: State, channels: set<Chan>, ch: Chan)
    requires WaitersOpen(d, channels)
    ensures WaitersOpen(d, channels + {ch})
  {
  }

  lemma BlockIsFifo(w: World, key: string, ch: Chan, k: string)
    requires Fifo(w, k)
    ensures Fifo(Step(w, BlockingPop(key, ch), k), k)
  {
    var w', items := Step(w, BlockingPop(key, ch), k), ListAt(w.d, key);
    if key != k {
      FifoElsewhere(w, w', k);
    } else if items != [] {
      Rejoin(w.consumed, items, 1);
      assert items[..1] == [items[0]] && ListAt(w'.d, k) == items[1..];
    } else {
      assert Served(w.deliveries) + (Waiters(w.d, k) + [ch]) == w.registered + [ch];
    }
  }

  lemma RegisterStep(d: State, d': State, key: string, ch: Chan, channels: set<Chan>)
    requires WaitersOpen(d, channels) && ch !in channels
    requires d' == SetWaiters(d, key, Waiters(d, key) + [ch])
    ensures WaitersOpen(d', channels + {ch})
    ensures Waiters(d', key) == Waiters(d, key) + [ch]
    ensures forall other :: other != key ==> Waiters(d', other) == Waiters(d, other)
  {
    var n := |Waiters(d, key)|;
    assert Waiters(d', key) == Waiters(d, key) + [ch];
    forall key1, i, c | Waits(d', key1, i, c) ensures (key1 == key && i == n && c == ch) || Waits(d, key1, i, c) {}
    assert forall c :: Mail(d', c) == Mail(d, c);
  }

  lemma ReceiveStep(w: World, ch: Chan, k: string)
    requires Inv(w, k)
    ensures Inv(Step(w, Receive(ch), k), k)
  {
    var w' := Step(w, Receive(ch), k);
    assert forall key, i, c :: Waits(w'.d, key, i, c) ==> Waits(w.d, key, i, c);
    assert forall c :: Mail(w.d, c) == [] ==> Mail(w'.d, c) == [];
    FifoElsewhere(w, w', k);
  }

  /** A place in a queue after a departure was one before it. */
  function OldPlace(queue: seq<Chan>, ch: Chan, i: int): int { if First(queue, ch) <= i then i + 1 else i }

  lemma WaitedBeforeLeaving(d: State, key: string, ch: Chan, key1: string, i: int, c: Chan)
    requires Waits(CleanUpWaiter(d, key, ch), key1, i, c)
    ensures Waits(d, key1, if key1 == key then OldPlace(Waiters(d, key), ch, i) else i, c)
  {
    WaitersAfter(d, key, ch, key1);
    KeepsOrder(Waiters(d, key), ch);
  }

  lemma LeaveOpen(d: State, key: string, ch: Chan, channels: set<Chan>)
    requires WaitersOpen(d, channels)
    ensures WaitersOpen(CleanUpWaiter(d, key, ch), channels)
  {
    var d' := CleanUpWaiter(d, key, ch);
    assert forall c :: Mail(d', c) == Mail(d, c);
    forall key1, i, c | Waits(d', key1, i, c) ensures c in channels && Mail(d', c) == [] {
      WaitedBeforeLeaving(d, key, ch, key1, i, c);
    }
    forall key1, i, key2, j, c | Waits(d', key1, i, c) && Waits(d', key2, j, c) ensures key1 == key2 && i == j {
      WaitedBeforeLeaving(d, key, ch, key1, i, c);
      WaitedBeforeLeaving(d, key, ch, key2, j, c);
    }
  }

  /** A client that leaves the queue of its key is in no queue of that key any more. */
  lemma LeavesForGood(d: State, key: string, ch: Chan, channels: set<Chan>)
    requires WaitersOpen(d, channels)
    ensures ch !in Waiters(CleanUpWaiter(d, key, ch), key)
  {
    var queue, after := Waiters(d, key), Waiters(CleanUpWaiter(d, key, ch), key);
    WaitersAfter(d, key, ch, key);
    KeepsOrder(queue, ch);
    if ch in after {
      var i :| 0 <= i < |after| && after[i] == ch;
      assert Waits(CleanUpWaiter(d, key, ch), key, i, ch);
      WaitedBeforeLeaving(d, key, ch, key, i, ch);
      assert Waits(d, key, First(queue, ch), ch);
    }
  }

  lemma LeaveStep(w: World, key: string, ch: Chan, k: string)
    requires Inv(w, k)
    ensures Inv(Step(w, Leave(key, ch), k), k)
  {
    LeaveOpen(w.d, key, ch, w.channels);
    WaitersAfter(w.d, key, ch, k);
    if key == k { LeaveHere(w, ch, k); } else { FifoElsewhere(w, Step(w, Leave(key, ch), k), k); }
  }

  lemma LeaveHere(w: World, ch: Chan, k: string)
    requires Fifo(w, k)
    ensures Fifo(Step(w, Leave(k, ch), k), k)
  {
    var n := |w.deliveries|;
    assert w.registered[..n] == Served(w.deliveries) && w.registered[n..] == Waiters(w.d, k);
    WaitersAfter(w.d, k, ch, k);
  }

  /** Every blocking pop of the run uses a channel of its own. */
  predicate FreshChannels(w: World, ops: seq<Op>, k: string)
    decreases |ops|
  {
    ops == [] ||
    ((ops[0].BlockingPop? ==> ops[0].ch !in w.channels) && FreshChannels(Step(w, ops[0], k), ops[1..], k))
  }

  lemma StepKeeps(w: World, op: Op, k: string)
    requires Inv(w, k) && (op.BlockingPop? ==> op.ch !in w.channels)
    ensures Inv(Step(w, op, k), k)
  {
    match op
    case Push(key, values) => PushStep(w, key, values, k);
    case Pop(key, count) => PopStep(w, key, count, k);
    case BlockingPop(key, ch) => BlockStep(w, key, ch, k);
    case Receive(ch) => ReceiveStep(w, ch, k);
    case Leave(key, ch) => LeaveStep(w, key, ch, k);
  }

  /** In every run and for every key: consumed followed by the list is what was pushed, waiters
      are there only while the list is empty, the clients served followed by those waiting are
      the clients that blocked, in order, and no waiter has been sent anything. */
  lemma {:induction false} RunsAreFifo(w: World, ops: seq<Op>, k: string)
    requires Inv(w, k) && FreshChannels(w, ops, k)
    ensures Inv(RunOps(w, ops, k), k)
    decreases |ops|
  {
    if ops != [] {
      StepKeeps(w, ops[0], k);
      RunsAreFifo(Step(w, ops[0], k), ops[1..], k);
    }
  }

  /** The empty server satisfies the invariant, so the theorem covers every reachable state. */
  lemma StartIsFifo(k: string)
    ensures Inv(World(EMPTY, [], [], [], [], {}, map[]), k)
  {
    assert forall key, i, ch :: !Waits(EMPTY, key, i, ch);
  }

  /** The step on a key is its hand-off and then a change of values only. */
  lemma PushParts(w: World, key: string, values: seq<string>, k: string)
    ensures var d', w', n := HandOff(w.d, key, values, []).0, Step(w, Push(key, values), k), Handed(w.d, key, values);
            && w'.d.waiters == d'.waiters && w'.d.mail == d'.mail
            && w'.received == w.received && w'.channels == w.channels
            && (key == k ==> w'.deliveries == w.deliveries + Pairs(Waiters(w.d, key)[..n], values[..n]))
            && (key != k ==> w'.deliveries == w.deliveries)
  {
    PushQueues(w.d, key, values);
  }

  /** A push wakes exactly the clients it serves, each with its own value; the buffer of each
      was empty before. */
  lemma EachGetsOne(w: World, values: seq<string>, k: string, i: nat)
    requires Inv(w, k) && i < Handed(w.d, k, values)
    ensures var w' := Step(w, Push(k, values), k);
            && Mail(w.d, Waiters(w.d, k)[i]) == []
            && Mail(w'.d, Waiters(w.d, k)[i]) == [values[i]]
            && w'.deliveries[|w.deliveries| + i] == (Waiters(w.d, k)[i], values[i])
            && w'.registered[|w.deliveries| + i] == Waiters(w.d, k)[i]
            && Waiters(w.d, k)[i] !in Waiters(w'.d, k)
  {
    HandOffInOrder(w.d, k, values, [], w.channels);
    var queue, n := Waiters(w.d, k), Handed(w.d, k, values);
    var w' := Step(w, Push(k, values), k);
    PushParts(w, k, values, k);
    assert Waiters(w'.d, k) == queue[n..];
    assert Waits(w.d, k, i, queue[i]);
    NotAgain(w.d, k, i, n, w.channels);
  }

  /** A channel is not in the rest of its queue. */
  lemma NotAgain(d: State, k: string, i: nat, n: nat, channels: set<Chan>)
    requires WaitersOpen(d, channels) && i < n <= |Waiters(d, k)|
    ensures Waiters(d, k)[i] !in Waiters(d, k)[n..]
  {
    var queue := Waiters(d, k);
    assert Waits(d, k, i, queue[i]);
    forall j | 0 <= j < |queue[n..]| ensures queue[n..][j] != queue[i] {
      assert Waits(d, k, n + j, queue[n..][j]);
    }
  }
}
