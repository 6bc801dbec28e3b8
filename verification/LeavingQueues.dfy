/** A blocking XREAD that was woken, timed out or failed leaves the queues of its keys; one that finds
    something at once does not. */
module LeavingQueues {
  import opened StoreModel
  import opened Sections
  import opened Watching
  import opened Departure
  import opened BlockingRead

  // ---- Sections of others -----------------------------------------------------------------------

  lemma {:induction false} HandOffCounts(d: State, key: string, values: seq<string>, rest: seq<string>, k: string,
                                         ch: Chan)
    ensures Count(HandOff(d, key, values, rest).0, k, ch) <= Count(d, k, ch)
    decreases |values|
  {
    if values != [] {
      var queue := Waiters(d, key);
      if queue == [] {
        HandOffCounts(d, key, values[1..], rest + [values[0]], k, ch);
      } else {
        var d1 := Send(SetWaiters(d, key, queue[1..]), queue[0], values[0]);
        assert queue == [queue[0]] + queue[1..];
        assert Waiters(d1, k) == if k == key then queue[1..] else Waiters(d, k);
        HandOffCounts(d1, key, values[1..], rest, k, ch);
      }
    }
  }

  lemma XAddCounts(d: State, key: string, id: string, fields: seq<string>, nowMs: int, k: string, ch: Chan)
    ensures Count(XAdd(d, key, id, fields, nowMs).0, k, ch) <= Count(d, k, ch)
  {
    var r := ChooseID(d, key, id, nowMs);
    if r.Added? {
      NotifyCounts(Put(d, key, Stream(StreamAt(d, key) + [Entry(r.id, fields)])), key, r.id, k, ch);
    }
  }

  lemma NotifyCounts(d: State, key: string, id: string, k: string, ch: Chan)
    ensures Count(NotifyKey(d, key, id), k, ch) <= Count(d, k, ch)
  {
    NotifyFrame(d, Waiters(d, key), id);
  }

  lemma JoinCounts(d: State, key: string, other: Chan, k: string, ch: Chan)
    ensures Count(SetWaiters(d, key, Waiters(d, key) + [other]), k, ch)
         == Count(d, k, ch) + if k == key && other == ch then 1 else 0
  {
    assert Waiters(SetWaiters(d, key, Waiters(d, key) + [other]), k)
        == if k == key then Waiters(d, key) + [other] else Waiters(d, k);
  }

  /** No section of others adds the channel anywhere. */
  lemma OthersCount(d: State, s: Section, k: string, ch: Chan)
    requires s.DoRegister? || s.DoBLPop? || s.DoCleanUpWaiter? ==> s.ch != ch
    ensures Count(Apply(d, s), k, ch) <= Count(d, k, ch)
  {
    match s
    case DoHandOff(key, values) => HandOffCounts(d, key, values, [], k, ch);
    case DoXAdd(key, id, fields, nowMs) => XAddCounts(d, key, id, fields, nowMs, k, ch);
    case DoRegister(key, other) => JoinCounts(d, key, other, k, ch);
    case DoBLPop(key, other) => BLPopCounts(d, key, other, k, ch);
    case DoCleanUpWaiter(key, other) => CleanUpCounts(d, key, other, k, ch);
    case _ => QuietSection(d, s);
  }

  lemma BLPopCounts(d: State, key: string, other: Chan, k: string, ch: Chan)
    requires other != ch
    ensures Count(BLPop(d, key, other).0, k, ch) <= Count(d, k, ch)
  {
    if ListAt(d, key) == [] { JoinCounts(d, key, other, k, ch); }
  }

  // ---- A blocking XREAD ---------------------------------------------------------------------------

  /** The keys at which the client may still be registered, as often as they occur. */
  function At(r: Client): seq<string>
    requires |r.marks| <= |r.keys|
  {
    match r.phase
    case Registering => r.keys[..|r.marks|]
    case Waiting => r.keys
    case Removing(left, _) => left
    case _ => []
  }

  /** The client is on its way: it waits at most where it has yet to leave. */
  ghost predicate OnlyThere(w: World) {
    && |w.r.marks| <= |w.r.keys| && |w.r.tops| == |w.r.marks|
    && forall k :: Count(w.d, k, w.r.ch) <= multiset(At(w.r))[k]
  }

  predicate OnItsWay(r: Client) { r.phase.Registering? || r.phase.Waiting? || r.phase.Removing? }

  lemma OthersKeep(w: World, s: Section)
    requires OnlyThere(w) && Elsewhere(w.d, s, w.r.keys, w.r.ch)
    ensures OnlyThere(w.(d := Apply(w.d, s)))
  {
    forall k ensures Count(Apply(w.d, s), k, w.r.ch) <= multiset(At(w.r))[k] { OthersCount(w.d, s, k, w.r.ch); }
  }

  lemma RegisterKeepsCount(w: World)
    requires OnlyThere(w) && w.r.phase.Registering? && |w.r.marks| < |w.r.keys|
    ensures OnlyThere(AdvanceClient(w))
  {
    var n, key, w' := |w.r.marks|, w.r.keys[|w.r.marks|], AdvanceClient(w);
    assert w.r.keys[..n + 1] == w.r.keys[..n] + [key];
    forall k ensures Count(w'.d, k, w.r.ch) <= multiset(At(w'.r))[k] { JoinCounts(w.d, key, w.r.ch, k, w.r.ch); }
  }

  lemma LeaveKeepsCount(w: World)
    requires OnlyThere(w) && w.r.phase.Removing? && w.r.phase.left != []
    ensures OnlyThere(AdvanceClient(w))
  {
    var left, w' := w.r.phase.left, AdvanceClient(w);
    assert left == [left[0]] + left[1..];
    forall k ensures Count(w'.d, k, w.r.ch) <= multiset(At(w'.r))[k] { CleanUpCounts(w.d, left[0], w.r.ch, k, w.r.ch); }
  }

  /** Every step keeps it, except that a client whose first read finds something answers at once,
      without leaving. */
  lemma StepLeaves(w: World, e: BlockingRead.Event)
    requires OnlyThere(w) && Permitted(w, e)
    ensures OnItsWay(Step(w, e).r) || !w.r.phase.Registering? ==> OnlyThere(Step(w, e))
  {
    match e
    case Server(s) => OthersKeep(w, s);
    case Deliver(ch) => assert Step(w, e).d.waiters == w.d.waiters;
    case Advance => AdvanceLeaves(w);
    case Timeout =>
  }

  lemma AdvanceLeaves(w: World)
    requires OnlyThere(w)
    ensures OnItsWay(AdvanceClient(w).r) || !w.r.phase.Registering? ==> OnlyThere(AdvanceClient(w))
  {
    match w.r.phase
    case Registering =>
      if |w.r.tops| < |w.r.keys| { RegisterKeepsCount(w); } else { assert w.r.keys[..|w.r.keys|] == w.r.keys; }
    case Removing(left, _) => if left != [] { LeaveKeepsCount(w); }
    case Waiting =>
      forall k ensures Count(AdvanceClient(w).d, k, w.r.ch) <= multiset(w.r.keys)[k] {
        assert Waiters(AdvanceClient(w).d, k) == Waiters(w.d, k);
        assert Count(w.d, k, w.r.ch) <= multiset(At(w.r))[k];
      }
    case _ =>
  }

  predicate Done(r: Client) { r.phase.Replied? || r.phase.NullReply? }

  lemma {:induction false} RunToLeaving(w: World, events: seq<BlockingRead.Event>)
    requires OnlyThere(w) && AllPermitted(w, events) && OnItsWay(RunEvents(w, events).r)
    ensures OnlyThere(RunEvents(w, events))
    decreases |events|
  {
    if events != [] {
      var w1 := Step(w, events[0]);
      DoneStays(w1, events[1..]);
      StepLeaves(w, events[0]);
      RunToLeaving(w1, events[1..]);
    }
  }

  lemma {:induction false} DoneStays(w: World, events: seq<BlockingRead.Event>)
    ensures Done(w.r) ==> Done(RunEvents(w, events).r)
    decreases |events|
  {
    if events != [] && Done(w.r) { DoneStays(Step(w, events[0]), events[1..]); }
  }

  lemma {:induction false} RunLeaves(w: World, events: seq<BlockingRead.Event>)
    requires OnlyThere(w) && AllPermitted(w, events) && !w.r.phase.Registering? && !w.r.phase.Waiting?
    ensures OnlyThere(RunEvents(w, events))
    decreases |events|
  {
    if events != [] {
      StepLeaves(w, events[0]);
      RunLeaves(Step(w, events[0]), events[1..]);
    }
  }

  /** A client that was woken, timed out or failed, has left its keys and is done waits in no queue,
      however its keys repeat and whatever happens around it. */
  lemma LeavesNothingBehind(w: World, before: seq<BlockingRead.Event>, after: seq<BlockingRead.Event>, k: string)
    requires Starts(w) && UnusedChannel(w.d, w.r.ch) && AllPermitted(w, before)
    requires var w1 := RunEvents(w, before); w1.r.phase.Removing? && AllPermitted(w1, after)
    ensures var v := RunEvents(RunEvents(w, before), after);
            Done(v.r) ==> v.r.ch !in Waiters(v.d, k)
  {
    forall key ensures Count(w.d, key, w.r.ch) == 0 {
      assert w.r.ch !in Waiters(w.d, key);
    }
    RunToLeaving(w, before);
    RunLeaves(RunEvents(w, before), after);
    var v := RunEvents(RunEvents(w, before), after);
    if Done(v.r) { assert Count(v.d, k, v.r.ch) <= multiset(At(v.r))[k] == 0; }
  }

  /** A client whose first read finds something answers at once and leaves no queue: at every key it
      still waits, or its channel holds a token nobody takes. */
  lemma AnswersAndStays(w: World, events: seq<BlockingRead.Event>, i: nat)
    requires Starts(w) && UnusedChannel(w.d, w.r.ch) && StreamsAt(w.d, w.r.keys) && AllPermitted(w, events)
    requires var v := RunEvents(w, events); v.r.phase.Registering? && |v.r.tops| == |v.r.keys|
    requires var v := RunEvents(w, events); i < |v.r.keys| && Done(AdvanceClient(v).r)
    ensures var v := AdvanceClient(RunEvents(w, events));
            v.r.ch in Waiters(v.d, v.r.keys[i]) || Mail(v.d, v.r.ch) != []
  {
    StartInv(w);
    RunKeeps(w, events);
    var v := RunEvents(w, events);
    assert Pending(v.d, v.r, i);
  }

  // ---- Timeouts -------------------------------------------------------------------------------------

  /** BLOCK 0 never answers null. */
  ghost predicate NeverNull(r: Client) {
    r.phase != NullReply && (r.phase.Removing? ==> r.phase.next != Null)
  }

  lemma {:induction false} BlockZeroWaits(w: World, events: seq<BlockingRead.Event>)
    requires w.r.timeoutMs == 0 && NeverNull(w.r)
    ensures NeverNull(RunEvents(w, events).r)
    decreases |events|
  {
    if events != [] {
      assert Step(w, events[0]).r.timeoutMs == 0 && NeverNull(Step(w, events[0]).r);
      BlockZeroWaits(Step(w, events[0]), events[1..]);
    }
  }

  /** Another timeout ends the wait: once its client has left its keys it answers null. */
  lemma {:induction false} TimesOut(w: World, left: seq<string>, n: nat)
    requires w.r.phase == Removing(left, Null) && n == |left|
    ensures RunEvents(w, seq(n + 1, _ => Advance)).r.phase == NullReply
    decreases n
  {
    var events := seq(n + 1, _ => Advance);
    assert events[0] == Advance && events[1..] == seq(n, _ => Advance);
    if n == 0 {
      assert RunEvents(AdvanceClient(w), []) == AdvanceClient(w);
    } else {
      TimesOut(AdvanceClient(w), left[1..], n - 1);
    }
  }

  lemma TimeoutStarts(w: World)
    requires w.r.phase == Waiting && w.r.timeoutMs != 0
    ensures Step(w, Timeout).r.phase == Removing(w.r.keys, Null) && Step(w, Timeout).d == w.d
  {
  }
}
