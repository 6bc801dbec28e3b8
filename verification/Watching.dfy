/** Optimistic locking (WATCH / EXEC) under every interleaving of critical sections. */
module Watching {
  import opened StreamIds
  import opened StoreModel
  import opened Sections

  /** No empty sorted set is stored. ZRem relies on it: it deletes an empty one without
      marking the key. */
  predicate NoEmptyZSet(d: State) { NoneEmpty(d.cache) }

  predicate NoneEmpty(cache: map<string, Datum>) {
    forall k :: k in cache && cache[k].ZSet? ==> cache[k].scores != map[]
  }

  /** The handlers only pass strings and lists to Set. */
  predicate Allowed(s: Section) { s.DoSet? ==> s.value.Text? || s.value.List? }

  /** The key a section reports as changed by its command, if any. */
  function Written(d: State, s: Section): Option<string> {
    match s
    case DoSet(key, _) => Some(key)
    case DoIncr(key) => if Incr(d, key).1.Some? then Some(key) else None
    case DoLPush(key, _) => Some(key)
    case DoRPush(key, _) => Some(key)
    case DoBLPop(key, _) => if ListAt(d, key) != [] then Some(key) else None
    case DoZAdd(key, _, _) => if key in d.cache && !d.cache[key].ZSet? then None else Some(key)
    case DoZRem(key, members) => if ZRem(d, key, members).1 > 0 then Some(key) else None
    case DoXAdd(key, id, _, now) => if ChooseID(d, key, id, now).Added? then Some(key) else None
    case _ => None
  }

  predicate Writes(d: State, s: Section, k: string) { Written(d, s) == Some(k) }

  /** The section removes k because its time to live is over. */
  predicate Drops(d: State, s: Section, k: string) {
    || (s.DoLazyDelete? && s.key == k)
    || (s.DoClean? && s.key == k && k in d.expiry && s.now >= d.expiry[k])
  }

  // ---- One section --------------------------------------------------------------------

  lemma {:induction false} HandOffFrame(d: State, key: string, values: seq<string>, remaining: seq<string>)
    ensures var d' := HandOff(d, key, values, remaining).0;
            d' == d.(waiters := d'.waiters, mail := d'.mail)
    decreases |values|
  {
    if values != [] {
      var queue := Waiters(d, key);
      if queue == [] {
        HandOffFrame(d, key, values[1..], remaining + [values[0]]);
      } else {
        HandOffFrame(Send(SetWaiters(d, key, queue[1..]), queue[0], values[0]), key, values[1..], remaining);
      }
    }
  }

  lemma {:induction false} NotifyFrame(d: State, queue: seq<Chan>, id: string)
    ensures var d' := Notify(d, queue, id);
            d' == d.(mail := d'.mail)
    decreases |queue|
  {
    if queue != [] { NotifyFrame(Send(d, queue[0], id), queue[1..], id); }
  }

  lemma {:induction false} WatchFrame(d: State, c: Conn, keys: seq<string>)
    ensures var d' := Watch(d, c, keys);
            && d' == d.(watchedKeys := d'.watchedKeys)
            && forall k :: Watchers(d', k) == Watchers(d, k) + (if k in keys then {c} else {})
    decreases |keys|
  {
    if keys != [] {
      var d1 := d.(watchedKeys := d.watchedKeys[keys[0] := Watchers(d, keys[0]) + {c}]);
      WatchFrame(d1, c, keys[1..]);
      forall k ensures k in keys <==> k == keys[0] || k in keys[1..] {
        assert keys == [keys[0]] + keys[1..];
      }
    }
  }

  lemma XAddFrame(d: State, key: string, id: string, fields: seq<string>, nowMs: int)
    ensures var d' := XAdd(d, key, id, fields, nowMs).0;
            var r := ChooseID(d, key, id, nowMs);
            if r.Added? then
              d' == Put(d, key, Stream(StreamAt(d, key) + [Entry(r.id, fields)]))
                    .(waiters := d'.waiters, mail := d'.mail)
            else d' == d
  {
    var r := ChooseID(d, key, id, nowMs);
    if r.Added? {
      var d1 := Put(d, key, Stream(StreamAt(d, key) + [Entry(r.id, fields)]));
      NotifyFrame(d1, Waiters(d1, key), r.id);
    }
  }

  /** The sections that can change a value. */
  predicate IsData(s: Section) {
    s.DoSet? || s.DoIncr? || s.DoLPush? || s.DoRPush? || s.DoBLPop? || s.DoZAdd? || s.DoZRem? || s.DoXAdd?
    || s.DoClean? || s.DoLazyDelete?
  }

  lemma OtherFrame(d: State, s: Section)
    requires !IsData(s)
    ensures Apply(d, s).cache == d.cache
    ensures !s.DoUnwatch? ==> Apply(d, s).dirtyClients == d.dirtyClients
    ensures !s.DoUnwatch? && !s.DoWatch? ==> Apply(d, s).watchedKeys == d.watchedKeys
  {
    match s
    case DoWatch(c1, keys) => WatchFrame(d, c1, keys);
    case DoHandOff(key, values) => HandOffFrame(d, key, values, []);
    case _ =>
  }

  /** The effect of a section on key: written and marked, or nothing. */
  predicate KeyEffect(d: State, d': State, key: string, written: bool) {
    && d'.watchedKeys == d.watchedKeys
    && d'.dirtyClients == d.dirtyClients + (if written then Watchers(d, key) else {})
    && (key in d'.cache && d'.cache[key].ZSet? ==> d'.cache[key].scores != map[])
    && (if written then d'.cache - {key} == d.cache - {key} else d'.cache == d.cache)
  }

  lemma PutEffect(d: State, key: string, value: Datum)
    requires value.ZSet? ==> value.scores != map[]
    ensures KeyEffect(d, Put(d, key, value), key, true)
    ensures KeyEffect(d, SetValue(d, key, value), key, true)
  {
  }

  /** Commands on one key: the key is written and marked, or nothing changes. */
  lemma DataEffect(d: State, s: Section)
    requires IsData(s) && !s.DoClean? && !s.DoLazyDelete? && NoEmptyZSet(d) && Allowed(s)
    ensures KeyEffect(d, Apply(d, s), s.key, Written(d, s) == Some(s.key))
    ensures Written(d, s).Some? ==> Written(d, s) == Some(s.key)
  {
    if s.DoBLPop? {
      BLPopEffect(d, s.key, s.ch);
    } else if s.DoZRem? {
      ZRemEffect(d, s.key, s.members);
    } else if s.DoXAdd? {
      XAddEffect(d, s.key, s.id, s.fields, s.nowMs);
    } else {
      StoreEffect(d, s);
    }
  }

  lemma StoreEffect(d: State, s: Section)
    requires s.DoSet? || s.DoIncr? || s.DoLPush? || s.DoRPush? || s.DoZAdd?
    requires NoEmptyZSet(d) && Allowed(s)
    ensures KeyEffect(d, Apply(d, s), s.key, Written(d, s) == Some(s.key))
    ensures Written(d, s).Some? ==> Written(d, s) == Some(s.key)
  {
    match s
    case DoSet(key, value) => PutEffect(d, key, value);
    case DoIncr(key) => IncrEffect(d, key);
    case DoLPush(key, values) => PutEffect(d, key, List(Reverse(values) + ListAt(d, key)));
    case DoRPush(key, values) => PutEffect(d, key, List(ListAt(d, key) + values));
    case DoZAdd(key, score, member) => ZAddEffect(d, key, score, member);
  }

  lemma XAddEffect(d: State, key: string, id: string, fields: seq<string>, nowMs: int)
    requires NoEmptyZSet(d)
    ensures KeyEffect(d, XAdd(d, key, id, fields, nowMs).0, key, ChooseID(d, key, id, nowMs).Added?)
  {
    var r := ChooseID(d, key, id, nowMs);
    XAddFrame(d, key, id, fields, nowMs);
    if r.Added? { PutEffect(d, key, Stream(StreamAt(d, key) + [Entry(r.id, fields)])); }
  }

  lemma IncrEffect(d: State, key: string)
    requires NoEmptyZSet(d)
    ensures KeyEffect(d, Incr(d, key).0, key, Incr(d, key).1.Some?)
  {
    if Incr(d, key).1.Some? {
      var v := Incr(d, key).0.cache[key];
      assert v.Text?;
      PutEffect(d, key, v);
      assert Incr(d, key).0 == Put(d, key, v);
    }
  }

  lemma BLPopEffect(d: State, key: string, ch: Chan)
    requires NoEmptyZSet(d)
    ensures KeyEffect(d, BLPop(d, key, ch).0, key, ListAt(d, key) != [])
  {
    var items := ListAt(d, key);
    if |items| > 1 {
      PutEffect(d, key, List(items[1..]));
    } else if |items| == 1 {
      assert (d.cache - {key}) - {key} == d.cache - {key};
    }
  }

  lemma ZAddEffect(d: State, key: string, score: Score, member: string)
    requires NoEmptyZSet(d)
    ensures KeyEffect(d, ZAdd(d, key, score, member).0, key, !(key in d.cache && !d.cache[key].ZSet?))
  {
    if !(key in d.cache && !d.cache[key].ZSet?) {
      var scores := if key in d.cache then d.cache[key].scores else map[];
      assert member in scores[member := score];
      PutEffect(d, key, ZSet(scores[member := score]));
    }
  }

  lemma ZRemEffect(d: State, key: string, members: seq<string>)
    requires NoEmptyZSet(d)
    ensures KeyEffect(d, ZRem(d, key, members).0, key, ZRem(d, key, members).1 > 0)
  {
    if key in d.cache && d.cache[key].ZSet? {
      var scores := d.cache[key].scores;
      if Removed(scores, members) == {} {
        assert scores - {} == scores;
        assert d.cache[key := d.cache[key]] == d.cache;
      }
    }
  }

  lemma DataMarks(d: State, s: Section)
    requires IsData(s) && NoEmptyZSet(d) && Allowed(s)
    ensures Apply(d, s).watchedKeys == d.watchedKeys
    ensures Apply(d, s).dirtyClients
         == d.dirtyClients + (if Written(d, s).Some? then Watchers(d, Written(d, s).value) else {})
  {
    if !s.DoClean? && !s.DoLazyDelete? { DataEffect(d, s); }
  }

  /** Only WATCH and UNWATCH change who watches what. */
  lemma WatchersStep(d: State, s: Section, c: Conn, k: string)
    requires NoEmptyZSet(d) && Allowed(s)
    ensures c in Watchers(Apply(d, s), k)
       <==> (c in Watchers(d, k) && s != DoUnwatch(c)) || (s.DoWatch? && s.c == c && k in s.keys)
  {
    if IsData(s) { DataMarks(d, s); }
    else if s.DoWatch? { WatchFrame(d, s.c, s.keys); }
    else if !s.DoUnwatch? { OtherFrame(d, s); }
  }

  /** A client is dirty after a section exactly if it was, or watched the written key; UNWATCH
      clears it. */
  lemma DirtyStep(d: State, s: Section, c: Conn)
    requires NoEmptyZSet(d) && Allowed(s)
    ensures c in Apply(d, s).dirtyClients
       <==> s != DoUnwatch(c) && (c in d.dirtyClients || exists k :: Writes(d, s, k) && c in Watchers(d, k))
  {
    DirtySet(d, s);
    if Written(d, s).Some? { assert Writes(d, s, Written(d, s).value); }
  }

  lemma DirtySet(d: State, s: Section)
    requires NoEmptyZSet(d) && Allowed(s)
    ensures Apply(d, s).dirtyClients
         == if s.DoUnwatch? then d.dirtyClients - {s.c}
            else d.dirtyClients + (if Written(d, s).Some? then Watchers(d, Written(d, s).value) else {})
  {
    if IsData(s) { DataMarks(d, s); } else { OtherFrame(d, s); }
  }

  /** A section that neither writes nor drops a key leaves its value alone. */
  lemma ValueStep(d: State, s: Section, k: string)
    requires NoEmptyZSet(d) && Allowed(s)
    ensures !Writes(d, s, k) && !Drops(d, s, k) ==> Lookup(Apply(d, s).cache, k) == Lookup(d.cache, k)
  {
    if !IsData(s) {
      OtherFrame(d, s);
    } else if !s.DoClean? && !s.DoLazyDelete? {
      DataEffect(d, s);
      if k != s.key { OtherKey(d.cache, Apply(d, s).cache, s.key, k); }
    }
  }

  lemma OtherKey(m: map<string, Datum>, m': map<string, Datum>, key: string, k: string)
    requires k != key
    ensures m' - {key} == m - {key} ==> Lookup(m', k) == Lookup(m, k)
  {
    if m' - {key} == m - {key} {
      assert k in m <==> k in m - {key};
      assert k in m' <==> k in m' - {key};
      if k in m { assert (m - {key})[k] == m[k] && (m' - {key})[k] == m'[k]; }
    }
  }

  lemma NoEmptyZSetStep(d: State, s: Section)
    requires NoEmptyZSet(d) && Allowed(s)
    ensures NoEmptyZSet(Apply(d, s))
  {
    if !IsData(s) {
      OtherFrame(d, s);
    } else if !s.DoClean? && !s.DoLazyDelete? {
      DataEffect(d, s);
      KeepNoneEmpty(d.cache, Apply(d, s).cache, s.key);
    } else {
      KeepNoneEmpty(d.cache, d.cache - {s.key}, s.key);
    }
  }

  lemma KeepNoneEmpty(m: map<string, Datum>, m': map<string, Datum>, key: string)
    requires NoneEmpty(m) && (m' == m || m' - {key} == m - {key})
    requires key in m' && m'[key].ZSet? ==> m'[key].scores != map[]
    ensures NoneEmpty(m')
  {
    forall k | k in m' && m'[k].ZSet? ensures m'[k].scores != map[] {
      if k != key { OtherKey(m, m', key, k); }
    }
  }

  // ---- Whole runs -----------------------------------------------------------------------

  predicate AllAllowed(run: seq<Section>) { forall i :: 0 <= i < |run| ==> Allowed(run[i]) }

  /** No section between i and the end gives up the watches of c. */
  predicate KeepsWatching(run: seq<Section>, c: Conn, i: int) {
    forall j :: i < j < |run| && 0 <= j ==> run[j] != DoUnwatch(c)
  }

  /** Section i is a WATCH of k by c that is still in force at the end of the run. */
  predicate WatchedSince(run: seq<Section>, c: Conn, k: string, i: int) {
    0 <= i < |run| && run[i].DoWatch? && run[i].c == c && k in run[i].keys && KeepsWatching(run, c, i)
  }

  lemma {:induction false} RunInvariant(d: State, run: seq<Section>)
    requires NoEmptyZSet(d) && AllAllowed(run)
    ensures NoEmptyZSet(Run(d, run))
    decreases |run|
  {
    if run != [] {
      NoEmptyZSetStep(d, run[0]);
      RunInvariant(Apply(d, run[0]), run[1..]);
    }
  }

  /** A client watches exactly the keys it has named in a WATCH since its last UNWATCH. */
  lemma {:induction false} WatchedExactly(d: State, run: seq<Section>, c: Conn, k: string)
    requires NoEmptyZSet(d) && AllAllowed(run) && c !in Watchers(d, k)
    ensures c in Watchers(Run(d, run), k) <==> exists i :: WatchedSince(run, c, k, i)
    decreases |run|
  {
    if run != [] {
      var n := |run| - 1;
      var before, s := run[..n], run[n];
      WatchedExactly(d, before, c, k);
      RunInvariant(d, before);
      AtStep(d, run, n);
      assert run[..n + 1] == run;
      WatchersStep(Run(d, before), s, c, k);
      SinceStep(run, c, k);
    }
  }

  lemma SinceStep(run: seq<Section>, c: Conn, k: string)
    requires run != []
    ensures var n := |run| - 1;
            (exists i :: WatchedSince(run, c, k, i)) <==>
            (((exists i :: WatchedSince(run[..n], c, k, i)) && run[n] != DoUnwatch(c))
             || (run[n].DoWatch? && run[n].c == c && k in run[n].keys))
  {
    var n := |run| - 1;
    if i :| WatchedSince(run[..n], c, k, i) && run[n] != DoUnwatch(c) {
      forall j | i < j < |run| ensures run[j] != DoUnwatch(c) {
        if j < n { assert run[j] == run[..n][j]; }
      }
      assert WatchedSince(run, c, k, i);
    }
    if run[n].DoWatch? && run[n].c == c && k in run[n].keys { assert WatchedSince(run, c, k, n); }
    if i :| WatchedSince(run, c, k, i) {
      if i < n {
        assert run[n] != DoUnwatch(c);
        forall j | i < j < n ensures run[..n][j] != DoUnwatch(c) { assert run[..n][j] == run[j]; }
        assert WatchedSince(run[..n], c, k, i);
      }
    }
  }

  /** Section j writes a key that c watched by a WATCH at i, and c has not unwatched since i. */
  ghost predicate Conflict(d: State, run: seq<Section>, c: Conn, k: string, i: int, j: int) {
    WatchedSince(run, c, k, i) && i < j < |run| && Writes(At(d, run, j), run[j], k)
  }

  lemma ConflictGrows(d: State, run: seq<Section>, c: Conn, k: string, i: int, j: int)
    requires run != [] && j < |run| - 1
    ensures var n := |run| - 1;
            Conflict(d, run, c, k, i, j) <==> Conflict(d, run[..n], c, k, i, j) && run[n] != DoUnwatch(c)
  {
    var n := |run| - 1;
    if 0 <= j { assert run[..n][..j] == run[..j]; }
    if WatchedSince(run, c, k, i) && i < n {
      forall l | i < l < n ensures run[..n][l] != DoUnwatch(c) { assert run[..n][l] == run[l]; }
    }
    if WatchedSince(run[..n], c, k, i) && run[n] != DoUnwatch(c) {
      forall l | i < l < |run| ensures run[l] != DoUnwatch(c) {
        if l < n { assert run[l] == run[..n][l]; }
      }
    }
  }

  /** IsDirty is exact: it answers true if and only if some key was written after the client's
      WATCH of it, with no UNWATCH since. */
  lemma {:induction false} DirtyExactly(d: State, run: seq<Section>, c: Conn)
    requires NoEmptyZSet(d) && AllAllowed(run)
    requires c !in d.dirtyClients && forall k :: c !in Watchers(d, k)
    ensures c in Run(d, run).dirtyClients <==> exists k, i, j :: Conflict(d, run, c, k, i, j)
    decreases |run|
  {
    if run != [] {
      var n := |run| - 1;
      var before, s := run[..n], run[n];
      DirtyExactly(d, before, c);
      RunInvariant(d, before);
      AtStep(d, run, n);
      assert run[..n + 1] == run;
      DirtyStep(Run(d, before), s, c);
      if k, i, j :| Conflict(d, run, c, k, i, j) { ConflictEarlier(d, run, c, k, i, j); }
      if s != DoUnwatch(c) {
        if c in Run(d, before).dirtyClients {
          var k, i, j :| Conflict(d, before, c, k, i, j);
          ConflictGrows(d, run, c, k, i, j);
        } else if k :| Writes(Run(d, before), s, k) && c in Watchers(Run(d, before), k) {
          var i := ConflictNow(d, run, c, k);
        }
      }
    }
  }

  /** A conflict of the run is one of its beginning, or a write of a watched key just now. */
  lemma ConflictEarlier(d: State, run: seq<Section>, c: Conn, k: string, i: int, j: int)
    requires NoEmptyZSet(d) && AllAllowed(run) && c !in Watchers(d, k)
    requires run != [] && Conflict(d, run, c, k, i, j)
    ensures var n := |run| - 1;
            && run[n] != DoUnwatch(c)
            && (Conflict(d, run[..n], c, k, i, j)
                || (Writes(Run(d, run[..n]), run[n], k) && c in Watchers(Run(d, run[..n]), k)))
  {
    if j < |run| - 1 {
      ConflictGrows(d, run, c, k, i, j);
    } else {
      ConflictLast(d, run, c, k, i);
    }
  }

  lemma ConflictLast(d: State, run: seq<Section>, c: Conn, k: string, i: int)
    requires NoEmptyZSet(d) && AllAllowed(run) && c !in Watchers(d, k)
    requires run != [] && Conflict(d, run, c, k, i, |run| - 1)
    ensures var n := |run| - 1;
            run[n] != DoUnwatch(c) && Writes(Run(d, run[..n]), run[n], k) && c in Watchers(Run(d, run[..n]), k)
  {
    WatchedExactly(d, run[..|run| - 1], c, k);
    SinceBefore(run, c, k, i);
  }

  lemma ConflictNow(d: State, run: seq<Section>, c: Conn, k: string) returns (i: int)
    requires NoEmptyZSet(d) && AllAllowed(run) && c !in Watchers(d, k) && run != []
    requires var n := |run| - 1;
             && run[n] != DoUnwatch(c) && Writes(Run(d, run[..n]), run[n], k) && c in Watchers(Run(d, run[..n]), k)
    ensures Conflict(d, run, c, k, i, |run| - 1)
  {
    var n := |run| - 1;
    WatchedExactly(d, run[..n], c, k);
    i :| WatchedSince(run[..n], c, k, i);
    SinceAfter(run, c, k, i);
  }

  lemma SinceBefore(run: seq<Section>, c: Conn, k: string, i: int)
    requires WatchedSince(run, c, k, i) && i < |run| - 1
    ensures WatchedSince(run[..|run| - 1], c, k, i) && run[|run| - 1] != DoUnwatch(c)
  {
    var before := run[..|run| - 1];
    forall l | i < l < |before| ensures before[l] != DoUnwatch(c) { assert before[l] == run[l]; }
  }

  lemma SinceAfter(run: seq<Section>, c: Conn, k: string, i: int)
    requires run != [] && WatchedSince(run[..|run| - 1], c, k, i) && run[|run| - 1] != DoUnwatch(c)
    ensures WatchedSince(run, c, k, i)
  {
    forall l | i < l < |run| ensures run[l] != DoUnwatch(c) {
      if l < |run| - 1 { assert run[l] == run[..|run| - 1][l]; }
    }
  }

  // ---- Expiry ---------------------------------------------------------------------------------

  /** Some section of the run removes k, which is there, because of a time to live. */
  predicate Expires(d: State, run: seq<Section>, k: string)
    decreases |run|
  {
    run != [] && ((Drops(d, run[0], k) && k in d.cache) || Expires(Apply(d, run[0]), run[1..], k))
  }

  /** What a section may do to a key watched by a client that stays clean. */
  lemma CleanStep(d: State, s: Section, c: Conn, k: string)
    requires NoEmptyZSet(d) && Allowed(s) && c in Watchers(d, k) && s != DoUnwatch(c)
    ensures NoEmptyZSet(Apply(d, s)) && c in Watchers(Apply(d, s), k)
    ensures c !in Apply(d, s).dirtyClients ==>
              Lookup(Apply(d, s).cache, k) == if Drops(d, s, k) then None else Lookup(d.cache, k)
  {
    NoEmptyZSetStep(d, s);
    WatchersStep(d, s, c, k);
    DirtyStep(d, s, c);
    ValueStep(d, s, k);
  }

  lemma {:induction false} DirtyStays(d: State, run: seq<Section>, c: Conn)
    requires NoEmptyZSet(d) && AllAllowed(run) && DoUnwatch(c) !in run
    ensures c in d.dirtyClients ==> c in Run(d, run).dirtyClients
    decreases |run|
  {
    if run != [] {
      DirtyStep(d, run[0], c);
      NoEmptyZSetStep(d, run[0]);
      assert run == [run[0]] + run[1..];
      DirtyStays(Apply(d, run[0]), run[1..], c);
    }
  }

  /** A key that is gone stays gone while its watcher is clean. */
  lemma {:induction false} AbsentStays(d: State, run: seq<Section>, c: Conn, k: string)
    requires NoEmptyZSet(d) && AllAllowed(run) && DoUnwatch(c) !in run
    requires c in Watchers(d, k) && c !in Run(d, run).dirtyClients && k !in d.cache
    ensures k !in Run(d, run).cache && !Expires(d, run, k)
    decreases |run|
  {
    if run != [] {
      assert run == [run[0]] + run[1..];
      CleanStep(d, run[0], c, k);
      DirtyStays(Apply(d, run[0]), run[1..], c);
      AbsentStays(Apply(d, run[0]), run[1..], c, k);
    }
  }

  /** The boundary of optimistic locking: a client that is clean at the end finds the value the key
      had when it was watched if and only if the key did not expire in between, which marks
      nobody. */
  lemma {:induction false} UnchangedUnlessExpired(d: State, run: seq<Section>, c: Conn, k: string)
    requires NoEmptyZSet(d) && AllAllowed(run) && DoUnwatch(c) !in run
    requires c in Watchers(d, k) && c !in Run(d, run).dirtyClients
    ensures Lookup(Run(d, run).cache, k) == Lookup(d.cache, k) <==> !Expires(d, run, k)
    decreases |run|
  {
    if run != [] {
      var d1 := Apply(d, run[0]);
      assert run == [run[0]] + run[1..];
      CleanStep(d, run[0], c, k);
      DirtyStays(d1, run[1..], c);
      if Drops(d, run[0], k) && k in d.cache {
        AbsentStays(d1, run[1..], c, k);
      } else {
        UnchangedUnlessExpired(d1, run[1..], c, k);
      }
    }
  }

  /** Optimistic locking: if a watching client is clean at the end, the key holds the value it had at
      the start, for every interleaving in which the client does not UNWATCH (EXEC and DISCARD do)
      and the key does not expire; and a client that is dirty stays dirty. */
  lemma CleanMeansUnchanged(d: State, run: seq<Section>, c: Conn, k: string)
    requires NoEmptyZSet(d) && AllAllowed(run) && !Expires(d, run, k)
    requires c in Watchers(d, k) && DoUnwatch(c) !in run
    ensures c in d.dirtyClients ==> c in Run(d, run).dirtyClients
    ensures c !in Run(d, run).dirtyClients ==> Lookup(Run(d, run).cache, k) == Lookup(d.cache, k)
  {
    DirtyStays(d, run, c);
    if c !in Run(d, run).dirtyClients { UnchangedUnlessExpired(d, run, c, k); }
  }

  // ---- EXEC asks too early ------------------------------------------------------------------------

  /** No section of the run writes or drops k. */
  predicate Untouched(d: State, run: seq<Section>, k: string)
    decreases |run|
  {
    run == [] || (!Writes(d, run[0], k) && !Drops(d, run[0], k) && Untouched(Apply(d, run[0]), run[1..], k))
  }

  lemma {:induction false} UntouchedKeeps(d: State, run: seq<Section>, k: string)
    requires NoEmptyZSet(d) && AllAllowed(run) && Untouched(d, run, k)
    ensures Lookup(Run(d, run).cache, k) == Lookup(d.cache, k)
    decreases |run|
  {
    if run != [] {
      ValueStep(d, run[0], k);
      NoEmptyZSetStep(d, run[0]);
      UntouchedKeeps(Apply(d, run[0]), run[1..], k);
    }
  }

  /** EXEC asks IsDirty after the sections `before` and starts its queue only after those of `mid`,
      its own UNWATCH among them. If it found the client clean, then a watched key holds at the
      start of the queue what it held when it was watched if and only if it does so after the
      last section of `mid` that wrote or dropped it; with none there is nothing to ask. */
  lemma ExecWindow(d: State, before: seq<Section>, mid: seq<Section>, j: nat, c: Conn, k: string)
    requires NoEmptyZSet(d) && AllAllowed(before) && AllAllowed(mid) && !Expires(d, before, k)
    requires c in Watchers(d, k) && DoUnwatch(c) !in before && c !in Run(d, before).dirtyClients
    requires j <= |mid| && Untouched(Run(d, before + mid[..j]), mid[j..], k)
    ensures Lookup(Run(d, before).cache, k) == Lookup(d.cache, k)
    ensures Lookup(Run(d, before + mid).cache, k) == Lookup(Run(d, before + mid[..j]).cache, k)
    ensures j == 0 ==> Lookup(Run(d, before + mid).cache, k) == Lookup(d.cache, k)
  {
    CleanMeansUnchanged(d, before, c, k);
    AllowedCut(before, mid, j);
    LaterUntouched(d, before + mid[..j], mid[j..], k);
  }

  lemma AllowedCut(before: seq<Section>, mid: seq<Section>, j: nat)
    requires AllAllowed(before) && AllAllowed(mid) && j <= |mid|
    ensures AllAllowed(before + mid[..j]) && AllAllowed(mid[j..])
    ensures before + mid[..j] + mid[j..] == before + mid && (j == 0 ==> before + mid[..j] == before)
  {
    var first := before + mid[..j];
    forall i | 0 <= i < |first| ensures Allowed(first[i]) {
      assert first[i] == if i < |before| then before[i] else mid[i - |before|];
    }
  }

  lemma LaterUntouched(d: State, first: seq<Section>, rest: seq<Section>, k: string)
    requires NoEmptyZSet(d) && AllAllowed(first) && AllAllowed(rest) && Untouched(Run(d, first), rest, k)
    ensures Lookup(Run(d, first + rest).cache, k) == Lookup(Run(d, first).cache, k)
  {
    RunInvariant(d, first);
    RunAppend(d, first, rest);
    UntouchedKeeps(Run(d, first), rest, k);
  }

  /** A SET as the last touch of that window: the client was clean when EXEC asked, and its queue
      runs on the value it watched if and only if the SET stored that value again. */
  lemma ExecMissesWrite(d: State, before: seq<Section>, a: seq<Section>, value: Datum, b: seq<Section>, c: Conn,
                        k: string)
    requires NoEmptyZSet(d) && AllAllowed(before) && AllAllowed(a + [DoSet(k, value)] + b) && !Expires(d, before, k)
    requires c in Watchers(d, k) && DoUnwatch(c) !in before && c !in Run(d, before).dirtyClients
    requires Untouched(Run(d, before + (a + [DoSet(k, value)])), b, k)
    ensures Lookup(Run(d, before + (a + [DoSet(k, value)] + b)).cache, k) == Lookup(d.cache, k)
       <==> Lookup(d.cache, k) == Some(value)
  {
    var touched := a + [DoSet(k, value)];
    var mid := touched + b;
    assert mid[..|touched|] == touched && mid[|touched|..] == b;
    ExecWindow(d, before, mid, |touched|, c, k);
    assert before + touched == before + a + [DoSet(k, value)];
    RunAppend(d, before + a, [DoSet(k, value)]);
    var d1 := Run(d, before + a);
    assert Run(d1, [DoSet(k, value)]) == SetValue(d1, k, value) by { assert [DoSet(k, value)][1..] == []; }
  }
}
