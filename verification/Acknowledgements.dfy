/** What WAIT may conclude from the acknowledgements it has received, and what it may not. */
module Acknowledgements {
  import opened Strconv
  import opened Resp
  import opened RespStream
  import opened StoreModel
  import opened Commands
  import opened Replication
  import opened Cluster

  // ---- What an acknowledgement certifies ----------------------------------------------------------

  /** The k-th acknowledgement answers the k-th GETACK, at some position of the history. */
  lemma {:induction false} AckPosition(history: seq<Command>, n: nat, k: nat) returns (i: nat)
    requires n <= |history| && k < GetAcks(history, n)
    ensures i < n && IsGetAck(history[i]) && GetAcks(history, i) == k && AcksOf(history, n)[k] == Bytes(history, i)
  {
    if GetAcks(history, n - 1) == k {
      i := n - 1;
    } else {
      i := AckPosition(history, n - 1, k);
    }
  }

  lemma LinkAckMeans(l: Link, j: nat) returns (i: nat)
    requires HistoryOk(l.history) && AckInv(l.history, l.done, l.got, l.acks) && 1 <= j <= |l.got + l.acks|
    ensures i < l.done <= |l.history| && IsGetAck(l.history[i]) && GetAcks(l.history, i) == j - 1
    ensures WriteBytes(l.history, i) == (l.got + l.acks)[j - 1] - 37 * (j - 1)
  {
    i := AckPosition(l.history, l.done, j - 1);
    BytesSplit(l.history, i);
  }

  /** An acknowledgement of a in answer to the j-th GETACK, counting from 1, means exactly
      a - 37 (j - 1) bytes of writes processed before it. */
  lemma AckMeans(w: World, c: Conn, j: nat) returns (i: nat)
    requires Reachable(w) && c in w.links && 1 <= j <= |w.links[c].got + w.links[c].acks|
    ensures var l := w.links[c];
            && i < l.done <= |l.history| && IsGetAck(l.history[i]) && GetAcks(l.history, i) == j - 1
            && WriteBytes(l.history, i) == (l.got + l.acks)[j - 1] - 37 * (j - 1)
  {
    ReachableInv(w);
    LinkOf(w, c);
    i := LinkAckMeans(w.links[c], j);
  }

  // ---- WAIT -----------------------------------------------------------------------------------------

  /** FIFO: once the master has received an acknowledgement of a GETACK written after some
      moment, the replica has processed everything written to it before that moment. */
  lemma AckFollowsWrites(w: World, events: seq<Event>, c: Conn)
    requires Reachable(w) && AllPermitted(w, events) && c in w.links
    ensures var h, v := w.links[c].history, Run(w, events);
            && c in v.links && h <= v.links[c].history
            && (|v.links[c].got| > GetAcks(h, |h|) ==> v.links[c].done > |h|)
  {
    ReachableInv(w);
    RunGrows(w, events, c);
    var h, v := w.links[c].history, Run(w, events);
    LinkOf(v, c);
    FifoAck(h, v.links[c]);
  }

  lemma FifoAck(h: seq<Command>, l: Link)
    requires h <= l.history && AckInv(l.history, l.done, l.got, l.acks)
    ensures |l.got| > GetAcks(h, |h|) ==> l.done > |h|
  {
    if l.done <= |h| {
      PrefixAgrees(h, l.history, l.done);
      WritesGrow(h, l.done, |h|);
      assert |l.got + l.acks| == GetAcks(h, l.done);
    }
  }

  lemma LatestAck(l: Link, m: Repl, c: Conn) returns (i: nat)
    requires LinkAt(Execute, m, c, l) && c in m.replicaOffsets
    ensures i < l.done <= |l.history| && WriteBytes(l.history, i) == m.replicaOffsets[c] - 37 * (|l.got| - 1)
  {
    assert l.got != [] && (l.got + l.acks)[|l.got| - 1] == l.got[|l.got| - 1];
    i := LinkAckMeans(l, |l.got|);
  }

  /** The number WAIT answers is the number of different replicas that have acknowledged. */
  lemma {:induction false} AckCountIsSet(m: Repl, conns: seq<Conn>, offset: int)
    requires Distinct(conns)
    ensures AckCount(m, conns, offset) == |set c | c in conns && Acknowledged(m, c, offset)|
  {
    if conns != [] {
      var rest := conns[1..];
      assert Distinct(rest) by {
        forall i, j | 0 <= i < j < |rest| ensures rest[i] != rest[j] { assert conns[i + 1] != conns[j + 1]; }
      }
      AckCountIsSet(m, rest, offset);
      var of := set c | c in conns && Acknowledged(m, c, offset);
      var before := set c | c in rest && Acknowledged(m, c, offset);
      assert conns == [conns[0]] + rest;
      assert of == before + (if Acknowledged(m, conns[0], offset) then {conns[0]} else {});
    }
  }

  /** A replica that a WAIT counts, with j acknowledgements so far, has processed at least the
      bytes of its snapshot less 37 (j - 1). */
  lemma CountedHasProcessed(v: World, c: Conn, snapshot: int)
    requires Reachable(v) && c in v.links && Acknowledged(v.m, c, snapshot)
    ensures var l := v.links[c];
            l.done <= |l.history| && WriteBytes(l.history, l.done) >= snapshot - 37 * (|l.got| - 1)
  {
    ReachableInv(v);
    LinkOf(v, c);
    var l := v.links[c];
    var i := LatestAck(l, v.m, c);
    WritesGrow(l.history, i, l.done);
    EncodeGrows(Writes(l.history, i), Writes(l.history, l.done));
  }

  /** A WAIT with the snapshot of w that counts a replica with j acknowledgements is right about it
      if 37 (j - 1) is at most the master's offset when the replica attached: it has processed
      every write sent to it before the snapshot. A first WAIT has j = 1. */
  lemma WaitIsSound(w: World, events: seq<Event>, c: Conn)
    requires Reachable(w) && AllPermitted(w, events) && c in w.links && w.links[c].open
    requires var v := Run(w, events);
             Acknowledged(v.m, c, w.m.masterOffset) && c in v.links && 37 * (|v.links[c].got| - 1) <= w.links[c].base
    ensures var h, l := w.links[c].history, Run(w, events).links[c];
            && l.done <= |l.history| && Writes(h, |h|) <= Writes(l.history, l.done)
            && WriteBytes(l.history, l.done) >= w.m.masterOffset - l.base
  {
    ReachableInv(w);
    RunGrows(w, events, c);
    var v := Run(w, events);
    var h, l := w.links[c].history, v.links[c];
    LinkOf(w, c);
    LinkOf(v, c);
    var i := LatestAck(l, v.m, c);
    WritesGrow(l.history, i, l.done);
    EncodeGrows(Writes(l.history, i), Writes(l.history, l.done));
    AllProcessed(h, l.history, i, l.done);
  }

  lemma AllProcessed(h: seq<Command>, h': seq<Command>, i: nat, done: nat)
    requires h <= h' && i <= done <= |h'| && WriteBytes(h', i) >= WriteBytes(h, |h|)
    ensures Writes(h, |h|) <= Writes(h', done)
  {
    PrefixAgrees(h, h', |h|);
    WritesGrow(h', i, done);
    if i >= |h| {
      WritesGrow(h', |h|, i);
    } else {
      WritesGrow(h', i, |h|);
      EncodeGrows(Writes(h', i), Writes(h, |h|));
    }
  }

  /** When a WAIT counts a replica against the master's present offset, without any further
      acknowledgement: exactly if the writes after its latest one have at most 37 (j - 1) bytes
      less the offset at which it attached, processed or not. */
  lemma CountedExactly(w: World, c: Conn) returns (i: nat)
    requires Reachable(w) && c in w.links && w.links[c].open && w.links[c].got != []
    ensures var l := w.links[c];
            && i < l.done <= |l.history| && IsGetAck(l.history[i]) && GetAcks(l.history, i) == |l.got| - 1
            && (Acknowledged(w.m, c, w.m.masterOffset) <==>
                WriteBytes(l.history, |l.history|) - WriteBytes(l.history, i) <= 37 * (|l.got| - 1) - l.base)
  {
    ReachableInv(w);
    LinkOf(w, c);
    i := LinkAckMeans(w.links[c], |w.links[c].got|);
  }

  /** A replica whose last command was a GETACK, and the master has its acknowledgement. */
  predicate JustAcked(w: World, c: Conn) {
    c in w.links &&
    var l := w.links[c];
    && l.open && l.got != [] && l.acks == []
    && l.done == |l.history| > 0 && IsGetAck(l.history[l.done - 1])
  }

  /** After one more write such a replica is counted by a new WAIT at once, although it has not
      processed that write, if and only if the write is short enough. */
  lemma StaleAckIsCounted(w: World, c: Conn, arr: Command)
    requires Reachable(w) && JustAcked(w, c) && IsWrite(arr)
    ensures var v, l := Step(w, Write(arr)), w.links[c];
            && c in v.links && v.links[c].done < |v.links[c].history| && v.links[c].history[v.links[c].done] == arr
            && (Acknowledged(v.m, c, v.m.masterOffset) <==> |EncodeArray(arr)| <= 37 * (|l.got| - 1) - l.base)
  {
    ReachableInv(w);
    LinkOf(w, c);
    LatestAhead(w.m, c, w.links[c]);
    PropagateFor(w.m, arr, c);
  }

  lemma LastAck(h: seq<Command>, n: nat)
    requires 0 < n <= |h| && HistoryOk(h) && IsGetAck(h[n - 1])
    ensures AcksOf(h, n) == AcksOf(h, n - 1) + [Bytes(h, n - 1)]
    ensures Bytes(h, n - 1) == WriteBytes(h, n) + 37 * (GetAcks(h, n) - 1)
  {
    BytesSplit(h, n - 1);
    assert Writes(h, n) == Writes(h, n - 1) + [] == Writes(h, n - 1);
  }

  lemma LatestAhead(m: Repl, c: Conn, l: Link)
    requires LinkAt(Execute, m, c, l) && Counted(m, l) && l.open && l.acks == []
    requires l.done == |l.history| > 0 && IsGetAck(l.history[l.done - 1])
    ensures c in m.replicaOffsets && m.replicaOffsets[c] == m.masterOffset - l.base + 37 * (|l.got| - 1)
  {
    LastAck(l.history, l.done);
    assert l.got + l.acks == l.got;
  }

  /** A replica that attached late starts to count at 0: WAIT counts it against the master's
      offset only once the GETACKs written to it make up for what it missed. */
  lemma LateJoinerUncounted(w: World, c: Conn)
    requires Reachable(w) && c in w.links && w.links[c].open && Acknowledged(w.m, c, w.m.masterOffset)
    ensures w.links[c].base <= 37 * GetAcks(w.links[c].history, |w.links[c].history|)
  {
    ReachableInv(w);
    LinkOf(w, c);
    LateLink(w.m, c, w.links[c]);
  }

  lemma LateLink(m: Repl, c: Conn, l: Link)
    requires LinkAt(Execute, m, c, l) && Counted(m, l) && l.open && Acknowledged(m, c, m.masterOffset)
    ensures l.base <= 37 * GetAcks(l.history, |l.history|)
  {
    var i := LatestPosition(l);
    LinkConserves(Execute, m, c, l);
    BytesGrow(l.history, i, |l.history|);
    WholeBytes(l.history);
  }

  lemma LatestPosition(l: Link) returns (i: nat)
    requires AckInv(l.history, l.done, l.got, l.acks) && l.got != []
    ensures i <= |l.history| && l.got[|l.got| - 1] == Bytes(l.history, i)
  {
    i := AckPosition(l.history, l.done, |l.got| - 1);
    assert (l.got + l.acks)[|l.got| - 1] == l.got[|l.got| - 1];
  }

  lemma {:induction false} BytesGrow(h: seq<Command>, a: nat, b: nat)
    requires a <= b <= |h|
    ensures Bytes(h, a) <= Bytes(h, b)
  {
    if a < b { BytesGrow(h, a, b - 1); }
  }

  // ---- A run that ends in a miscount -------------------------------------------------------------

  lemma {:induction false} RunSnoc(w: World, events: seq<Event>, e: Event)
    requires AllPermitted(w, events) && Permitted(Run(w, events), e)
    ensures AllPermitted(w, events + [e]) && Run(w, events + [e]) == Step(Run(w, events), e)
    decreases |events|
  {
    if events == [] {
      assert [e][1..] == [] && [] + [e] == [e];
      assert Run(Step(w, e), []) == Step(w, e);
    } else {
      assert (events + [e])[1..] == events[1..] + [e];
      RunSnoc(Step(w, events[0]), events[1..], e);
    }
  }

  lemma Extend(w: World, e: Event)
    requires Reachable(w) && Permitted(w, e)
    ensures Reachable(Step(w, e))
  {
    var events :| AllPermitted(NOBODY, events) && Run(NOBODY, events) == w;
    RunSnoc(NOBODY, events, e);
  }

  /** The replica has processed and acknowledged everything, n times. */
  predicate Settled(w: World, c: Conn, n: nat) {
    c in w.links &&
    var l := w.links[c];
    l.open && l.base == 0 && l.acks == [] && l.done == |l.history| && |l.got| == n
  }

  lemma ReplicaCatchesUp(w: World, c: Conn, env: Env)
    requires Reachable(w) && c in w.links && w.links[c].done + 1 == |w.links[c].history|
    ensures var l, v := w.links[c], Step(w, Replica(c, env));
            && Reachable(v) && c in v.links && SameHistory(l, v.links[c]) && v.links[c].done == |l.history|
            && |l.got + v.links[c].acks| == GetAcks(l.history, |l.history|)
  {
    ReachableInv(w);
    LinkOf(w, c);
    ReplicaKeeps(Execute, Out(w.m, c), w.links[c], env);
    Extend(w, Replica(c, env));
    ReachableInv(Step(w, Replica(c, env)));
    LinkOf(Step(w, Replica(c, env)), c);
  }

  lemma SettledAcks(w: World, c: Conn, n: nat)
    requires Reachable(w) && Settled(w, c, n)
    ensures GetAcks(w.links[c].history, |w.links[c].history|) == n
  {
    ReachableInv(w);
    LinkOf(w, c);
    assert w.links[c].got + [] == w.links[c].got;
  }

  lemma GetAcksSnoc(h: seq<Command>, arr: Command)
    ensures GetAcks(h + [arr], |h| + 1) == GetAcks(h, |h|) + if IsGetAck(arr) then 1 else 0
  {
    PrefixStable(h, arr, |h|);
  }

  /** A write on the way to a settled replica. */
  lemma Written(w: World, c: Conn, arr: Command, n: nat) returns (w1: World)
    requires Reachable(w) && Settled(w, c, n) && IsWrite(arr)
    ensures w1 == Step(w, Write(arr)) && Reachable(w1)
    ensures c in w1.links && w1.links[c] == Noted(w.links[c], arr)
  {
    w1 := Step(w, Write(arr));
    ReachableInv(w);
    LinkOf(w, c);
    Extend(w, Write(arr));
  }

  /** A write, processed. */
  lemma WriteAndProcess(w: World, c: Conn, arr: Command, env: Env, n: nat) returns (v: World)
    requires Reachable(w) && Settled(w, c, n) && IsWrite(arr)
    ensures Reachable(v) && Settled(v, c, n)
  {
    var w1 := Written(w, c, arr, n);
    ReplicaCatchesUp(w1, c, env);
    v := Step(w1, Replica(c, env));
    NoNewAck(w, c, arr, n, v.links[c]);
  }

  lemma NoNewAck(w: World, c: Conn, arr: Command, n: nat, l': Link)
    requires Reachable(w) && Settled(w, c, n) && IsWrite(arr) && l'.got == w.links[c].got
    requires var h := w.links[c].history + [arr]; |l'.got + l'.acks| == GetAcks(h, |h|)
    ensures l'.acks == []
  {
    SettledAcks(w, c, n);
    GetAckIs();
    GetAcksSnoc(w.links[c].history, arr);
  }

  /** A GETACK, answered and received. */
  lemma Exchange(w: World, c: Conn, env: Env, n: nat) returns (v: World)
    requires Reachable(w) && Settled(w, c, n)
    ensures Reachable(v) && Settled(v, c, n + 1) && v.links[c].history == w.links[c].history + [GETACK]
  {
    SettledAcks(w, c, n);
    var l, w1 := w.links[c], Step(w, AskAck(c));
    Extend(w, AskAck(c));
    ReplicaCatchesUp(w1, c, env);
    GetAckIs();
    GetAcksSnoc(l.history, GETACK);
    var w2 := Step(w1, Replica(c, env));
    Extend(w2, ReceiveAck(c));
    v := Step(w2, ReceiveAck(c));
  }

  const SHORT_SET: Command := [Str("SET"), Str("k"), Str("v")]

  lemma ShortSet()
    ensures IsWrite(SHORT_SET) && |EncodeArray(SHORT_SET)| == 27
  {
    OneDigit(3);
    OneDigit(1);
    assert SHORT_SET[1..] == [Str("k"), Str("v")] && SHORT_SET[1..][1..] == [Str("v")];
    assert SHORT_SET[1..][1..][1..] == [];
    assert EncodeItems(SHORT_SET[1..][1..]) == EncodeItem(Str("v")) + EncodeItems(SHORT_SET[1..][1..][1..]);
    assert EncodeItems(SHORT_SET[1..]) == EncodeItem(Str("k")) + EncodeItems(SHORT_SET[1..][1..]);
    assert EncodeItems(SHORT_SET) == EncodeItem(Str("SET")) + EncodeItems(SHORT_SET[1..]);
    BulkLength("SET", 1);
    BulkLength("k", 1);
    BulkLength("v", 1);
    assert ToUpper("SET")[0] == 'S';
  }

  /** SET k v, two WAITs, SET k v: the third WAIT would count a replica from the start that has
      not processed the last command. */
  lemma ThirdWaitMiscounts(c: Conn, store: State, env: Env) returns (v: World)
    ensures Reachable(v) && c in v.links && v.links[c].open && v.links[c].base == 0
    ensures Acknowledged(v.m, c, v.m.masterOffset) && v.links[c].done < |v.links[c].history|
  {
    ShortSet();
    assert AllPermitted(NOBODY, []) && Run(NOBODY, []) == NOBODY;
    Extend(NOBODY, Attach(c, store));
    var w := Step(NOBODY, Attach(c, store));
    w := WriteAndProcess(w, c, SHORT_SET, env, 0);
    w := Exchange(w, c, env, 0);
    w := Exchange(w, c, env, 1);
    GetAckIs();
    assert JustAcked(w, c);
    StaleAckIsCounted(w, c, SHORT_SET);
    Extend(w, Write(SHORT_SET));
    v := Step(w, Write(SHORT_SET));
    StepKeepsOpen(w, c);
  }

  lemma StepKeepsOpen(w: World, c: Conn)
    requires c in w.links && IsWrite(SHORT_SET)
    ensures var v := Step(w, Write(SHORT_SET));
            c in v.links && v.links[c].open == w.links[c].open && v.links[c].base == w.links[c].base
  {
  }
}
