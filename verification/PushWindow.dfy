/** LPUSH and RPUSH take two sections: one serves the waiters, a later one stores what is left. A
    client that joins the queue in between waits beside a list that is not empty. */
module PushWindow {
  import opened StoreModel
  import opened Sections
  import opened BlockingRead

  /** The section adds the channel to the queue of k: BLPOP of a key without values, or a
      registration by XREAD. */
  predicate Joins(d: State, s: Section, ch: Chan, k: string) {
    (s == DoBLPop(k, ch) && ListAt(d, k) == []) || s == DoRegister(k, ch)
  }

  lemma {:induction false} HandOffAddsNone(d: State, key: string, values: seq<string>, rest: seq<string>, ch: Chan,
                                           k: string)
    ensures ch in Waiters(HandOff(d, key, values, rest).0, k) ==> ch in Waiters(d, k)
    decreases |values|
  {
    if values != [] {
      var queue := Waiters(d, key);
      if queue == [] {
        HandOffAddsNone(d, key, values[1..], rest + [values[0]], ch, k);
      } else {
        var d1 := Send(SetWaiters(d, key, queue[1..]), queue[0], values[0]);
        assert Waiters(d1, key) == queue[1..] && (k != key ==> Waiters(d1, k) == Waiters(d, k));
        HandOffAddsNone(d1, key, values[1..], rest, ch, k);
      }
    }
  }

  /** No other section adds a channel to a queue. */
  lemma OnlyJoins(d: State, s: Section, ch: Chan, k: string)
    requires ch !in Waiters(d, k) && ch in Waiters(Apply(d, s), k)
    ensures Joins(d, s, ch, k)
  {
    if s.DoHandOff? { HandOffAddsNone(d, s.key, s.values, [], ch, k); }
    else if s.DoXAdd? { XAddRespects(d, s.key, s.id, s.fields, s.nowMs, ch, k); }
    else if s.DoCleanUpWaiter? { LeaveAddsNone(d, s.key, s.ch, ch, k); }
    else if Queues(s) { JoinCase(d, s, ch, k); }
    else { QuietSection(d, s); }
  }

  lemma JoinCase(d: State, s: Section, ch: Chan, k: string)
    requires s.DoBLPop? || s.DoRegister?
    requires ch !in Waiters(d, k) && ch in Waiters(Apply(d, s), k)
    ensures Joins(d, s, ch, k)
  {
    if s.ch != ch {
      QueueRespects(d, s, ch, k);
    } else if s.key != k {
      OtherQueue(d, s, k);
    }
  }

  lemma OtherQueue(d: State, s: Section, k: string)
    requires (s.DoBLPop? || s.DoRegister?) && s.key != k
    ensures Waiters(Apply(d, s), k) == Waiters(d, k)
  {
  }

  lemma LeaveAddsNone(d: State, key: string, c: Chan, ch: Chan, k: string)
    ensures ch in Waiters(CleanUpWaiter(d, key, c), k) ==> ch in Waiters(d, k)
  {
    RemoveFirstIn(Waiters(d, key), c, ch);
  }

  /** The channel joined the queue of k at section j and is there ever since. */
  predicate WaitsSince(d: State, run: seq<Section>, ch: Chan, k: string, j: nat) {
    && j < |run| && Joins(At(d, run, j), run[j], ch, k)
    && forall i :: j < i <= |run| ==> ch in Waiters(At(d, run, i), k)
  }

  lemma WaitsLonger(d: State, run: seq<Section>, ch: Chan, k: string, j: nat)
    requires run != [] && WaitsSince(d, run[..|run| - 1], ch, k, j) && ch in Waiters(At(d, run, |run|), k)
    ensures WaitsSince(d, run, ch, k, j)
  {
    var n := |run| - 1;
    assert run[..n][..j] == run[..j] && run[..n][j] == run[j];
    forall i | j < i <= |run| ensures ch in Waiters(At(d, run, i), k) {
      if i <= n { assert run[..n][..i] == run[..i] && ch in Waiters(At(d, run[..n], i), k); }
    }
  }

  lemma {:induction false} JoinedSince(d: State, run: seq<Section>, ch: Chan, k: string) returns (j: nat)
    requires ch !in Waiters(d, k) && ch in Waiters(Run(d, run), k)
    ensures WaitsSince(d, run, ch, k, j)
    decreases |run|
  {
    var n := |run| - 1;
    assert run[..n + 1] == run;
    AtStep(d, run, n);
    if ch in Waiters(At(d, run, n), k) {
      j := JoinedSince(d, run[..n], ch, k);
      WaitsLonger(d, run, ch, k, j);
    } else {
      OnlyJoins(At(d, run, n), run[n], ch, k);
      j := n;
    }
  }

  lemma {:induction false} HandOffUnwaited(d: State, key: string, values: seq<string>, rest: seq<string>)
    requires Waiters(d, key) == []
    ensures HandOff(d, key, values, rest).0 == d
    decreases |values|
  {
    if values != [] { HandOffUnwaited(d, key, values[1..], rest + [values[0]]); }
  }

  /** Something is left only when nobody waits. */
  lemma {:induction false} LeftOverUnwaited(d: State, key: string, values: seq<string>, rest: seq<string>)
    ensures var (d', remaining) := HandOff(d, key, values, rest); remaining != rest ==> Waiters(d', key) == []
    decreases |values|
  {
    if values != [] {
      var queue := Waiters(d, key);
      if queue == [] {
        HandOffUnwaited(d, key, values, rest);
      } else {
        LeftOverUnwaited(Send(SetWaiters(d, key, queue[1..]), queue[0], values[0]), key, values[1..], rest);
      }
    }
  }

  /** Some client waits although the list has a value. */
  predicate WaitsBeside(d: State, key: string) { Waiters(d, key) != [] && ListAt(d, key) != [] }

  /** A push with the sections of others between its two. */
  function SplitPush(d: State, left: bool, key: string, values: seq<string>, mid: seq<Section>): State {
    var (d1, remaining) := HandOff(d, key, values, []);
    var d2 := Run(d1, mid);
    if remaining == [] then d2 else if left then LPush(d2, key, remaining) else RPush(d2, key, remaining)
  }

  lemma WaitsBesideIf(d: State, left: bool, key: string, values: seq<string>, mid: seq<Section>)
    requires HandOff(d, key, values, []).1 != []
    ensures WaitsBeside(SplitPush(d, left, key, values, mid), key)
       <==> Waiters(Run(HandOff(d, key, values, []).0, mid), key) != []
  {
    var remaining := HandOff(d, key, values, []).1;
    assert |Reverse(remaining)| > 0;
  }

  lemma WaitsAtEnd(d: State, run: seq<Section>, ch: Chan, k: string, j: nat)
    requires WaitsSince(d, run, ch, k, j)
    ensures ch in Waiters(Run(d, run), k)
  {
    assert run[..|run|] == run && ch in Waiters(At(d, run, |run|), k);
  }

  /** A push that stores something leaves a client waiting beside the list if and only if one has
      joined the queue between its two sections and is still there. */
  lemma WaitsBesideExactly(d: State, left: bool, key: string, values: seq<string>, mid: seq<Section>)
    requires HandOff(d, key, values, []).1 != []
    ensures var d1 := HandOff(d, key, values, []).0;
            WaitsBeside(SplitPush(d, left, key, values, mid), key) <==> exists ch, j :: WaitsSince(d1, mid, ch, key, j)
  {
    var d1 := HandOff(d, key, values, []).0;
    WaitsBesideIf(d, left, key, values, mid);
    JoinersWait(d, d1, key, values, mid);
  }

  lemma JoinersWait(d: State, d1: State, key: string, values: seq<string>, mid: seq<Section>)
    requires d1 == HandOff(d, key, values, []).0 && HandOff(d, key, values, []).1 != []
    ensures Waiters(Run(d1, mid), key) != [] <==> exists ch, j :: WaitsSince(d1, mid, ch, key, j)
  {
    LeftOverUnwaited(d, key, values, []);
    var queue := Waiters(Run(d1, mid), key);
    if queue != [] { var j := JoinedSince(d1, mid, queue[0], key); }
    if ch, j :| WaitsSince(d1, mid, ch, key, j) { WaitsAtEnd(d1, mid, ch, key, j); }
  }

  /** So it happens: BLPOP finds nothing, joins the queue, and the value of RPUSH is stored. */
  lemma BlockedBesideValue(key: string, value: string, ch: Chan)
    ensures WaitsBeside(SplitPush(EMPTY, false, key, [value], [DoBLPop(key, ch)]), key)
  {
    var mid := [DoBLPop(key, ch)];
    assert HandOff(EMPTY, key, [value], []) == (EMPTY, [value]) by {
      assert [value][1..] == [] && [] + [value] == [value];
    }
    assert mid[1..] == [] && Waiters(EMPTY, key) + [ch] == [ch];
    assert Run(EMPTY, mid) == Apply(EMPTY, mid[0]) == SetWaiters(EMPTY, key, [ch]);
  }
}
