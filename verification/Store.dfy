/** The `Store` of app/storage.go: a class whose methods are the critical sections of its lock.
    Each method is proved against the state function of the same name in StoreModel. */
module StoreClass {
  import opened Strconv
  import opened Resp
  import opened StreamIds
  import M = StoreModel
  import opened StoreModel

  class Store {
    var cache: map<string, Datum>
    var expiry: map<string, int>
    var waiters: map<string, seq<Chan>>
    var mail: map<Chan, seq<string>>
    var transactions: map<Conn, seq<seq<Value>>>
    var watchedKeys: map<string, set<Conn>>
    var dirtyClients: set<Conn>

    function Model(): State
      reads this
    {
      State(cache, expiry, waiters, mail, transactions, watchedKeys, dirtyClients)
    }

    constructor (data: map<string, Datum>, deadlines: map<string, int>)
      ensures Model() == EMPTY.(cache := data, expiry := deadlines)
    {
      cache, expiry, waiters, mail := data, deadlines, map[], map[];
      transactions, watchedKeys, dirtyClients := map[], map[], {};
    }

    // ---- Plain values and expiry -------------------------------------------------

    method MarkDirty(key: string)
      modifies this
      ensures Model() == M.MarkDirty(old(Model()), key)
    {
      if key in watchedKeys {
        var watching := watchedKeys[key];
        var conns := watching;
        while conns != {}
          invariant conns <= watching
          invariant Model() == old(Model()).(dirtyClients := old(dirtyClients) + (watching - conns))
          decreases |conns|
        {
          var conn :| conn in conns;
          dirtyClients := dirtyClients + {conn};
          conns := conns - {conn};
        }
      }
    }

    method Set(key: string, value: Datum)
      modifies this
      ensures Model() == SetValue(old(Model()), key, value)
    {
      cache := cache[key := value];
      expiry := expiry - {key};
      MarkDirty(key);
    }

    /** Both critical sections; the cleanup goroutine it starts runs CleanUp later. */
    method SetWithTTL(key: string, value: Datum, deadline: int)
      modifies this
      ensures Model() == SetExpiry(SetValue(old(Model()), key, value), key, deadline)
    {
      Set(key, value);
      expiry := expiry[key := deadline];
    }

    method CleanUp(key: string, now: int)
      modifies this
      ensures Model() == Clean(old(Model()), key, now)
    {
      if key in expiry && now >= expiry[key] {
        cache := cache - {key};
        expiry := expiry - {key};
      }
    }

    method Get(key: string, now: int) returns (value: Option<Datum>)
      modifies this
      ensures (Model(), value) == M.Get(old(Model()), key, now)
    {
      if key in cache && key in expiry {
        if now > expiry[key] {
          cache := cache - {key};
          expiry := expiry - {key};
          return None;
        }
      }
      value := if key in cache then Some(cache[key]) else None;
    }

    method Incr(key: string) returns (result: Option<int>)
      modifies this
      ensures (Model(), result) == M.Incr(old(Model()), key)
    {
      if key !in cache {
        cache := cache[key := Text("1")];
        MarkDirty(key);
        return Some(1);
      }
      if !cache[key].Text? { return None; }
      var parsed := Atoi(cache[key].text);
      if !parsed.Parsed? { return None; }
      var intVal := Wrap64(parsed.value + 1);
      cache := cache[key := Text(FormatInt(intVal))];
      MarkDirty(key);
      result := Some(intVal);
    }

    // ---- Lists ---------------------------------------------------------------------

    method LPush(key: string, values: seq<string>) returns (length: nat)
      modifies this
      ensures Model() == M.LPush(old(Model()), key, values)
      ensures length == |ListAt(Model(), key)|
    {
      var newList: seq<string> := [];
      var i := |values|;
      while i > 0
        invariant 0 <= i <= |values|
        invariant newList == Reverse(values[i..])
      {
        i := i - 1;
        assert values[i..][1..] == values[i + 1..];
        newList := newList + [values[i]];
      }
      assert values[0..] == values;
      newList := newList + (if key in cache && cache[key].List? then cache[key].items else []);
      cache := cache[key := List(newList)];
      MarkDirty(key);
      length := |newList|;
    }

    method RPush(key: string, values: seq<string>) returns (length: nat)
      modifies this
      ensures Model() == M.RPush(old(Model()), key, values)
      ensures length == |ListAt(Model(), key)|
    {
      var newList := (if key in cache && cache[key].List? then cache[key].items else []) + values;
      cache := cache[key := List(newList)];
      MarkDirty(key);
      length := |newList|;
    }

    /** Take the first waiter of the key and send it the value. */
    method SendToFirst(key: string, val: string)
      requires Waiters(Model(), key) != []
      modifies this
      ensures var queue := Waiters(old(Model()), key);
              Model() == Send(SetWaiters(old(Model()), key, queue[1..]), queue[0], val)
    {
      var waiterChan := waiters[key][0];
      UpdateRemove(waiters, key, waiters[key][1..]);
      waiters := waiters[key := waiters[key][1..]];
      if |waiters[key]| == 0 { waiters := waiters - {key}; }
      mail := mail[waiterChan := (if waiterChan in mail then mail[waiterChan] else []) + [val]];
    }

    /** The locked loop of handleLPUSH and handleRPUSH. */
    method HandOff(key: string, values: seq<string>) returns (remaining: seq<string>)
      modifies this
      ensures (Model(), remaining) == M.HandOff(old(Model()), key, values, [])
    {
      ghost var all := M.HandOff(Model(), key, values, []);
      remaining := [];
      var i := 0;
      assert values[0..] == values;
      while i < |values|
        invariant 0 <= i <= |values|
        invariant all == M.HandOff(Model(), key, values[i..], remaining)
      {
        assert values[i..][1..] == values[i + 1..];
        if key in waiters && |waiters[key]| > 0 {
          SendToFirst(key, values[i]);
        } else {
          remaining := remaining + [values[i]];
        }
        i := i + 1;
      }
    }

    method BLPop(key: string, ch: Chan) returns (value: Option<string>)
      modifies this
      ensures (Model(), value) == M.BLPop(old(Model()), key, ch)
    {
      if key in cache && cache[key].List? && |cache[key].items| > 0 {
        value := Some(cache[key].items[0]);
        UpdateRemove(cache, key, List(cache[key].items[1..]));
        cache := cache[key := List(cache[key].items[1..])];
        if |cache[key].items| == 0 { cache := cache - {key}; }
        MarkDirty(key);
      } else {
        var queue := (if key in waiters then waiters[key] else []) + [ch];
        assert queue != [];
        waiters := waiters[key := queue];
        value := None;
      }
    }

    method CleanUpExpiredKeyWaiter(key: string, waiterChan: Chan)
      modifies this
      ensures Model() == CleanUpWaiter(old(Model()), key, waiterChan)
    {
      if key in waiters {
        var queues := waiters[key];
        var i := IndexOfChannel(queues, waiterChan);
        ghost var left := RemoveFirst(queues, waiterChan);
        UpdateRemove(waiters, key, left);
        assert waiters[key := queues] == waiters;
        if i < |queues| { waiters := waiters[key := queues[..i] + queues[i + 1..]]; }
        assert waiters[key] == left;
        if |waiters[key]| == 0 { waiters := waiters - {key}; }
      }
    }

    // ---- Sorted sets -----------------------------------------------------------------

    method ZAdd(key: string, score: Score, member: string) returns (added: int)
      modifies this
      ensures (Model(), added) == M.ZAdd(old(Model()), key, score, member)
    {
      added := 0;
      var zset: map<string, Score> := map[];
      if key in cache {
        if !cache[key].ZSet? { return 0; }
        zset := cache[key].scores;
      }
      if member !in zset { added := 1; }
      zset := zset[member := score];
      cache := cache[key := ZSet(zset)];
      MarkDirty(key);
    }

    method ZRem(key: string, members: seq<string>) returns (removedCount: int)
      modifies this
      ensures (Model(), removedCount) == M.ZRem(old(Model()), key, members)
    {
      if key !in cache || !cache[key].ZSet? { return 0; }
      var zset: map<string, Score>;
      zset, removedCount := DeleteMembers(cache[key].scores, members);
      UpdateRemove(cache, key, ZSet(zset));
      cache := cache[key := ZSet(zset)];
      if |zset| == 0 { cache := cache - {key}; }
      if removedCount > 0 { MarkDirty(key); }
    }

    // ---- Transactions and watches ------------------------------------------------------

    method StartTx(conn: Conn) returns (started: bool)
      modifies this
      ensures (Model(), started) == M.StartTx(old(Model()), conn)
    {
      if conn in transactions { return false; }
      transactions := transactions[conn := []];
      started := true;
    }

    method QueueCommand(conn: Conn, arr: seq<Value>)
      modifies this
      ensures Model() == M.QueueCommand(old(Model()), conn, arr)
    {
      if conn in transactions {
        transactions := transactions[conn := transactions[conn] + [arr]];
      }
    }

    method GetAndClearTx(conn: Conn) returns (queue: Option<seq<seq<Value>>>)
      modifies this
      ensures queue == Lookup(old(transactions), conn) && Model() == ClearTx(old(Model()), conn)
    {
      queue := if conn in transactions then Some(transactions[conn]) else None;
      transactions := transactions - {conn};
    }

    method Watch(conn: Conn, keys: seq<string>)
      modifies this
      ensures Model() == M.Watch(old(Model()), conn, keys)
    {
      var i := 0;
      while i < |keys|
        invariant 0 <= i <= |keys|
        invariant M.Watch(old(Model()), conn, keys) == M.Watch(Model(), conn, keys[i..])
      {
        assert keys[i..][1..] == keys[i + 1..];
        var key := keys[i];
        ghost var before := Model();
        UpdateTwice(watchedKeys, key, {}, {conn});
        if key !in watchedKeys { watchedKeys := watchedKeys[key := {}]; }
        watchedKeys := watchedKeys[key := watchedKeys[key] + {conn}];
        assert watchedKeys == before.watchedKeys[key := Watchers(before, key) + {conn}];
        assert Model() == before.(watchedKeys := watchedKeys);
        i := i + 1;
      }
    }

    method Unwatch(conn: Conn)
      modifies this
      ensures Model() == M.Unwatch(old(Model()), conn)
    {
      var keys := watchedKeys.Keys;
      while keys != {}
        invariant Model() == old(Model()).(watchedKeys := watchedKeys)
        invariant keys <= watchedKeys.Keys <= old(watchedKeys).Keys
        invariant forall k :: k in keys ==> watchedKeys[k] == old(watchedKeys)[k]
        invariant forall k :: k in old(watchedKeys) && k !in keys ==>
                    if old(watchedKeys)[k] - {conn} == {} then k !in watchedKeys
                    else k in watchedKeys && watchedKeys[k] == old(watchedKeys)[k] - {conn}
        decreases |keys|
      {
        var key :| key in keys;
        var conns := watchedKeys[key] - {conn};
        watchedKeys := if conns == {} then watchedKeys - {key} else watchedKeys[key := conns];
        keys := keys - {key};
      }
      assert watchedKeys == M.Unwatch(old(Model()), conn).watchedKeys;
      dirtyClients := dirtyClients - {conn};
    }

    method IsDirty(conn: Conn) returns (dirty: bool)
      ensures dirty <==> conn in Model().dirtyClients
    {
      dirty := conn in dirtyClients;
    }

    // ---- Streams -------------------------------------------------------------------------

    /** The last ID of a stream, 0-0 when it is empty or unreadable. */
    method TopOf(entries: seq<Entry>) returns (lastMs: int, lastSeq: int)
      ensures LastID(entries) == ID(lastMs, lastSeq)
    {
      lastMs, lastSeq := 0, 0;
      if |entries| > 0 {
        var last := ParseStreamID(entries[|entries| - 1].id);
        if last.Some? { lastMs, lastSeq := last.value.ms, last.value.seqNo; }
      }
    }

    /** The part of XAdd that compares the request with the top of the stream. */
    method SequenceAfter(newMs: int, newSeq: int, seqIsStar: bool, lastMs: int, lastSeq: int)
      returns (finalSeq: Option<int>)
      ensures var next := NextID(ID(newMs, newSeq), seqIsStar, ID(lastMs, lastSeq));
              next == if finalSeq.Some? then Some(ID(newMs, finalSeq.value)) else None
    {
      if seqIsStar {
        if newMs < lastMs { return None; }
        return Some(if newMs == lastMs then Wrap64(lastSeq + 1) else 0);
      }
      if newMs == 0 && newSeq == 0 { return None; }
      if newMs < lastMs || (newMs == lastMs && newSeq <= lastSeq) { return None; }
      finalSeq := Some(newSeq);
    }

    /** The part of XAdd before the append: parse the request, compare it with the top. */
    method NewEntryID(key: string, id: string, nowMs: int) returns (result: XAddResult)
      ensures result == ChooseID(Model(), key, id, nowMs)
    {
      var request := Some((ID(nowMs, 0), true));
      if id != "*" { request := ParseMaybeStarID(id); }
      if request.None? { return BadID; }
      var entries: seq<Entry> := [];
      if key in cache {
        if !cache[key].Stream? { return WrongType; }
        entries := cache[key].entries;
      }
      var lastMs, lastSeq := TopOf(entries);
      var newMs, newSeq := request.value.0.ms, request.value.0.seqNo;
      var finalSeq := SequenceAfter(newMs, newSeq, request.value.1, lastMs, lastSeq);
      if finalSeq.None? {
        return if !request.value.1 && newMs == 0 && newSeq == 0 then NotAboveZero else NotAboveTop;
      }
      result := Added(FormatID(ID(newMs, finalSeq.value)));
    }

    method XAdd(key: string, id: string, fields: seq<string>, nowMs: int) returns (result: XAddResult)
      modifies this
      ensures (Model(), result) == M.XAdd(old(Model()), key, id, fields, nowMs)
    {
      result := NewEntryID(key, id, nowMs);
      if result.Added? {
        AppendEntry(key, Entry(result.id, fields));
        NotifyWaiters(key, result.id);
      }
    }

    method AppendEntry(key: string, entry: Entry)
      requires key in cache ==> cache[key].Stream?
      modifies this
      ensures Model() == Put(old(Model()), key, Stream(StreamAt(old(Model()), key) + [entry]))
    {
      if key !in cache {
        assert [] + [entry] == [entry];
        cache := cache[key := Stream([entry])];
      } else {
        cache := cache[key := Stream(cache[key].entries + [entry])];
      }
      MarkDirty(key);
    }

    /** One goroutine per waiter sends the ID; the key's waiters are forgotten. */
    method NotifyWaiters(key: string, id: string)
      modifies this
      ensures Model() == NotifyKey(old(Model()), key, id)
    {
      if key in waiters && |waiters[key]| > 0 {
        var queues := waiters[key];
        var i := 0;
        while i < |queues|
          invariant 0 <= i <= |queues|
          invariant Notify(old(Model()), queues, id) == Notify(Model(), queues[i..], id)
        {
          assert queues[i..][1..] == queues[i + 1..];
          mail := mail[queues[i] := (if queues[i] in mail then mail[queues[i]] else []) + [id]];
          i := i + 1;
        }
        waiters := waiters - {key};
      }
    }

    /** One registration section of a blocking XREAD. */
    method Register(key: string, ch: Chan) returns (lastID: string)
      modifies this
      ensures (Model(), lastID) == M.Register(old(Model()), key, ch)
    {
      lastID := "0-0";
      if key in cache && cache[key].Stream? && |cache[key].entries| > 0 {
        lastID := cache[key].entries[|cache[key].entries| - 1].id;
      }
      var queue := (if key in waiters then waiters[key] else []) + [ch];
      assert queue != [];
      waiters := waiters[key := queue];
    }

    method XRange(key: string, startID: string, endID: string) returns (r: ReadResult<seq<Entry>>)
      ensures r == M.XRange(Model(), key, startID, endID)
    {
      if key !in cache { return Entries([]); }
      if !cache[key].Stream? { return WrongTypeError; }
      var low := ParseIDOptionalSeq(startID, true);
      if low.None? { return BadIDError; }
      var high := ParseIDOptionalSeq(endID, false);
      if high.None? { return BadIDError; }
      var result := SelectWithin(cache[key].entries, low.value, high.value);
      r := Entries(result);
    }

    method XReadKey(key: string, id: string) returns (r: ReadResult<seq<Entry>>)
      ensures r == ReadKey(Model(), key, id)
    {
      var low := ParseIDOptionalSeq(id, true);
      if low.None? { return BadIDError; }
      if key !in cache { return Entries([]); }
      if !cache[key].Stream? { return WrongTypeError; }
      var out := SelectAbove(cache[key].entries, low.value);
      r := Entries(out);
    }

    method XRead(keys: seq<string>, ids: seq<string>) returns (r: ReadResult<map<string, seq<Entry>>>)
      requires |keys| == |ids|
      ensures r == M.XRead(Model(), keys, ids)
    {
      var result: map<string, seq<Entry>> := map[];
      var i := 0;
      while i < |keys|
        invariant 0 <= i <= |keys|
        invariant M.XRead(Model(), keys[..i], ids[..i]) == Entries(result)
      {
        assert keys[..i + 1][..i] == keys[..i] && ids[..i + 1][..i] == ids[..i];
        var one := XReadKey(keys[i], ids[i]);
        if !one.Entries? {
          ReadStops(Model(), keys, ids, i + 1);
          return if one.WrongTypeError? then WrongTypeError else BadIDError;
        }
        result := result[keys[i] := one.found];
        i := i + 1;
      }
      assert keys[..i] == keys && ids[..i] == ids;
      r := Entries(result);
    }
  }

  /** The loop of XRange over the entries. */
  method SelectWithin(entries: seq<Entry>, low: ID, high: ID) returns (result: seq<Entry>)
    ensures result == EntriesWithin(entries, low, high)
  {
    result := [];
    var i := 0;
    while i < |entries|
      invariant 0 <= i <= |entries|
      invariant EntriesWithin(entries, low, high) == result + EntriesWithin(entries[i..], low, high)
    {
      assert entries[i..][1..] == entries[i + 1..];
      if IDWithin(entries[i], low, high) { result := result + [entries[i]]; }
      i := i + 1;
    }
    assert result + [] == result;
  }

  /** The loop of XRead over the entries of one stream. */
  method SelectAbove(entries: seq<Entry>, low: ID) returns (out: seq<Entry>)
    ensures out == EntriesAbove(entries, low)
  {
    out := [];
    var i := 0;
    while i < |entries|
      invariant 0 <= i <= |entries|
      invariant EntriesAbove(entries, low) == out + EntriesAbove(entries[i..], low)
    {
      assert entries[i..][1..] == entries[i + 1..];
      if IDAbove(entries[i], low) { out := out + [entries[i]]; }
      i := i + 1;
    }
    assert out + [] == out;
  }

  /** The search loop of CleanUpExpiredKeyWaiter. */
  method IndexOfChannel(queues: seq<Chan>, waiterChan: Chan) returns (i: nat)
    ensures i <= |queues|
    ensures RemoveFirst(queues, waiterChan) == if i < |queues| then queues[..i] + queues[i + 1..] else queues
  {
    i := 0;
    while i < |queues| && queues[i] != waiterChan
      invariant i <= |queues|
      invariant RemoveFirst(queues, waiterChan) == queues[..i] + RemoveFirst(queues[i..], waiterChan)
    {
      assert queues[i..][1..] == queues[i + 1..];
      i := i + 1;
    }
    if i < |queues| { assert queues[i..][1..] == queues[i + 1..]; }
  }

  /** The loop of ZRem over its members. */
  method DeleteMembers(scores: map<string, Score>, members: seq<string>)
    returns (zset: map<string, Score>, removedCount: nat)
    ensures zset == scores - Removed(scores, members)
    ensures removedCount == |Removed(scores, members)|
  {
    zset := scores;
    removedCount := 0;
    var i := 0;
    while i < |members|
      invariant 0 <= i <= |members|
      invariant zset == scores - Removed(scores, members[..i])
      invariant removedCount == |Removed(scores, members[..i])|
    {
      assert members[..i + 1] == members[..i] + [members[i]];
      RemovedSnoc(scores, members[..i], members[i]);
      if members[i] in zset {
        zset := zset - {members[i]};
        removedCount := removedCount + 1;
      }
      i := i + 1;
    }
    assert members[..i] == members;
  }

  lemma UpdateRemove<K, V>(m: map<K, V>, k: K, v: V)
    ensures m[k := v] - {k} == m - {k}
  {
  }

  lemma UpdateTwice<K, V>(m: map<K, V>, k: K, v: V, w: V)
    ensures m[k := v][k := w] == m[k := w]
  {
  }

  lemma RemovedSnoc(scores: map<string, Score>, members: seq<string>, m: string)
    ensures Removed(scores, members + [m]) == Removed(scores, members) + (if m in scores then {m} else {})
  {
  }

  /** XREAD returns its first error whatever keys follow. */
  lemma {:induction false} ReadStops(d: State, keys: seq<string>, ids: seq<string>, k: nat)
    requires |keys| == |ids| && k <= |keys| && !M.XRead(d, keys[..k], ids[..k]).Entries?
    ensures M.XRead(d, keys, ids) == M.XRead(d, keys[..k], ids[..k])
  {
    if k == |keys| {
      assert keys[..k] == keys && ids[..k] == ids;
    } else {
      var n := |keys| - 1;
      assert keys[..n][..k] == keys[..k] && ids[..n][..k] == ids[..k];
      ReadStops(d, keys[..n], ids[..n], k);
    }
  }
}
