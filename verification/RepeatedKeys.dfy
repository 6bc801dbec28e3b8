/** A blocking XREAD that names a key more than once: wake-ups are never lost for the ID given
    last for a key, and can be lost for every other. */
module RepeatedKeys {
  import opened StreamIds
  import opened StoreModel
  import opened Streams
  import opened BlockingRead

  // ---- Every key registered, nobody else moving ----------------------------------------------

  /** Some permitted run leads from w to v. */
  ghost predicate Reaches(w: World, v: World) {
    exists events: seq<BlockingRead.Event> :: AllPermitted(w, events) && v == RunEvents(w, events)
  }

  lemma ReachesItself(w: World)
    ensures Reaches(w, w)
  {
    assert AllPermitted(w, []) && w == RunEvents(w, []);
  }

  lemma ReachesAfter(w: World, w': World, v: World)
    requires w' == AdvanceClient(w) && Reaches(w', v)
    ensures Reaches(w, v)
  {
    var rest: seq<BlockingRead.Event> :| AllPermitted(w', rest) && v == RunEvents(w', rest);
    var events := [Advance] + rest;
    assert events[1..] == rest && Step(w, events[0]) == w';
    assert AllPermitted(w, events) && v == RunEvents(w, events);
  }

  /** A client that registers while nobody else moves: the tops are those of the present streams. */
  predicate Registers(d: State, w: World) {
    && w.r.phase.Registering? && |w.r.tops| == |w.r.marks| <= |w.r.keys| == |w.r.raw|
    && w.d.cache == d.cache && w.d.mail == d.mail
    && forall j :: 0 <= j < |w.r.tops| ==> Noted(StreamAt(d, w.r.keys[j]), |StreamAt(d, w.r.keys[j])|, w.r.tops[j])
  }

  predicate SameRequest(r: Client, r': Client) { r'.keys == r.keys && r'.raw == r.raw && r'.ch == r.ch }

  lemma RegisterOne(d: State, w: World)
    requires Registers(d, w) && |w.r.tops| < |w.r.keys|
    ensures var w' := AdvanceClient(w);
            Registers(d, w') && SameRequest(w.r, w'.r) && |w'.r.tops| == |w.r.tops| + 1
  {
    var key := w.r.keys[|w.r.tops|];
    assert StreamAt(w.d, key) == StreamAt(d, key);
  }

  /** After its registrations the client reads. */
  lemma {:induction false} RegisterAll(d: State, w: World, n: nat) returns (u: World, v: World)
    requires Registers(d, w) && n == |w.r.keys| - |w.r.tops|
    ensures Registers(d, u) && SameRequest(w.r, u.r) && |u.r.tops| == |u.r.keys|
    ensures v == AdvanceClient(u) && Reaches(w, v)
    decreases n
  {
    var w' := AdvanceClient(w);
    if n == 0 {
      u, v := w, w';
      ReachesItself(v);
    } else {
      RegisterOne(d, w);
      u, v := RegisterAll(d, w', n - 1);
    }
    ReachesAfter(w, w', v);
  }

  // ---- The first read ------------------------------------------------------------------------

  /** `-` for the chosen place, `$` for all others. */
  function Asking(keys: seq<string>, i: nat): (raw: seq<string>)
    ensures |raw| == |keys| && forall j :: 0 <= j < |keys| ==> raw[j] == if j == i then "-" else "$"
  {
    seq(|keys|, j => if j == i then "-" else "$")
  }

  lemma {:induction false} LastPlace(keys: seq<string>, j: nat) returns (l: nat)
    requires j < |keys|
    ensures LastOf(keys, l) && keys[l] == keys[j]
    decreases |keys| - j
  {
    if LastOf(keys, j) {
      l := j;
    } else {
      var m :| 0 <= m < |keys[j + 1..]| && keys[j + 1..][m] == keys[j];
      l := LastPlace(keys, j + 1 + m);
    }
  }

  lemma FromTheStart(d: State, k: string)
    requires StreamKey(d, k) && Ordered(StreamAt(d, k))
    ensures ReadKey(d, k, "-") == Entries(StreamAt(d, k))
  {
    forall i | 0 <= i < |StreamAt(d, k)| ensures ZERO.Less(IdOf(StreamAt(d, k)[i])) {
      assert Canonical(StreamAt(d, k)[i]);
    }
    NoneBelow(StreamAt(d, k), ZERO, ZERO);
  }

  /** What each place is answered. */
  lemma PlaceRead(d: State, r: Client, i: nat, j: nat)
    requires StreamsAt(d, r.keys) && Registers(d, World(d, r)) && |r.tops| == |r.keys| && r.raw == Asking(r.keys, i)
    requires j < |r.keys|
    ensures ReadKey(d, r.keys[j], Ids(r.raw, r.tops)[j]) == Entries(if j == i then StreamAt(d, r.keys[j]) else [])
  {
    assert r.keys[j] in r.keys;
    if j == i {
      FromTheStart(d, r.keys[j]);
    } else {
      ReadsSinceMark(d, r.keys[j], |StreamAt(d, r.keys[j])|, r.tops[j]);
    }
  }

  /** Every key is answered at its last place, so nothing of place i is in the answer. */
  lemma NothingFound(d: State, keys: seq<string>, ids: seq<string>, i: nat)
    requires |keys| == |ids| && !LastOf(keys, i)
    requires forall j :: 0 <= j < |keys| ==> ReadKey(d, keys[j], ids[j]).Entries?
    requires forall j :: 0 <= j < |keys| && j != i ==> ReadKey(d, keys[j], ids[j]).found == []
    ensures NothingNew(XRead(d, keys, ids), keys)
  {
    XReadSucceeds(d, keys, ids);
    var data := XRead(d, keys, ids);
    forall j | 0 <= j < |keys| ensures !(keys[j] in data.found && data.found[keys[j]] != []) {
      var l := LastPlace(keys, j);
      XReadAt(d, keys, ids, l);
    }
  }

  lemma FirstReadFindsNothing(d: State, r: Client, i: nat)
    requires StreamsAt(d, r.keys) && Registers(d, World(d, r)) && |r.tops| == |r.keys| && r.raw == Asking(r.keys, i)
    requires !LastOf(r.keys, i)
    ensures NothingNew(ReadNow(d, r), r.keys)
  {
    var ids := Ids(r.raw, r.tops);
    forall j | 0 <= j < |r.keys|
      ensures ReadKey(d, r.keys[j], ids[j]) == Entries(if j == i then StreamAt(d, r.keys[j]) else [])
    {
      PlaceRead(d, r, i, j);
    }
    NothingFound(d, r.keys, ids, i);
  }

  /** The client waits without a token while the stream at place i has entries above the ID given
      at that place. */
  predicate Missed(v: World, i: nat) {
    && v.r.phase.Waiting? && Mail(v.d, v.r.ch) == [] && |v.r.raw| == |v.r.tops| == |v.r.keys| && i < |v.r.keys|
    && var data := ReadKey(v.d, v.r.keys[i], Ids(v.r.raw, v.r.tops)[i]); data.Entries? && data.found != []
  }

  lemma WaitsInVain(d: State, r: Client, v: World, i: nat)
    requires StreamsAt(d, r.keys) && Registers(d, World(d, r)) && |r.tops| == |r.keys| && r.raw == Asking(r.keys, i)
    requires i < |r.keys| && !LastOf(r.keys, i) && StreamAt(d, r.keys[i]) != [] && Mail(d, r.ch) == []
    requires v == AdvanceClient(World(d, r))
    ensures Missed(v, i)
  {
    FirstReadFindsNothing(d, r, i);
    PlaceRead(d, r, i, i);
    assert v == World(d, r.(phase := Waiting));
  }

  lemma SameStreamsAt(d: State, d': State, keys: seq<string>)
    requires StreamsAt(d, keys) && d'.cache == d.cache
    ensures StreamsAt(d', keys)
    ensures forall k :: StreamAt(d', k) == StreamAt(d, k)
  {
  }

  lemma WaitsAfter(d: State, v: World, v': World, i: nat)
    requires StreamsAt(d, v.r.keys) && Registers(d, v) && |v.r.tops| == |v.r.keys| && v.r.raw == Asking(v.r.keys, i)
    requires i < |v.r.keys| && !LastOf(v.r.keys, i) && StreamAt(d, v.r.keys[i]) != [] && Mail(d, v.r.ch) == []
    requires v' == AdvanceClient(v)
    ensures Missed(v', i)
  {
    assert Mail(v.d, v.r.ch) == [];
    SameStreamsAt(d, v.d, v.r.keys);
    forall j | 0 <= j < |v.r.tops|
      ensures Noted(StreamAt(v.d, v.r.keys[j]), |StreamAt(v.d, v.r.keys[j])|, v.r.tops[j])
    {
      assert Noted(StreamAt(d, v.r.keys[j]), |StreamAt(d, v.r.keys[j])|, v.r.tops[j]);
    }
    WaitsInVain(v.d, v.r, v', i);
  }

  // ---- The theorems --------------------------------------------------------------------------

  /** Any streams, any keys, any place that is not the last of its key, any new channel. */
  lemma RepeatedKeyWaits(w: World, i: nat) returns (v: World)
    requires Starts(w) && w.r.raw == Asking(w.r.keys, i) && i < |w.r.keys| && !LastOf(w.r.keys, i)
    requires StreamsAt(w.d, w.r.keys) && StreamAt(w.d, w.r.keys[i]) != []
    ensures Reaches(w, v) && Missed(v, i)
  {
    var u;
    u, v := RegisterAll(w.d, w, |w.r.keys|);
    WaitsAfter(w.d, u, v, i);
  }

  lemma {:induction false} SameKeys(w: World, events: seq<BlockingRead.Event>)
    ensures RunEvents(w, events).r.keys == w.r.keys
    decreases |events|
  {
    if events != [] { SameKeys(Step(w, events[0]), events[1..]); }
  }

  /** A client with a new channel, whose keys hold streams if anything. */
  ghost predicate New(w: World) { Starts(w) && UnusedChannel(w.d, w.r.ch) && StreamsAt(w.d, w.r.keys) }

  ghost predicate NeverMissed(keys: seq<string>, i: nat) {
    forall w: World, v: World :: New(w) && w.r.keys == keys && Reaches(w, v) ==> !Missed(v, i)
  }

  /** A store with one entry in one stream. */
  lemma OneEntry(k: string, keys: seq<string>) returns (d: State)
    ensures StreamsAt(d, keys) && StreamAt(d, k) != [] && d.waiters == map[] && d.mail == map[]
  {
    var id := ID(1, 1);
    ParseFormat(id);
    d := EMPTY.(cache := map[k := Stream([Entry(FormatID(id), [])])]);
  }

  /** A client that asks for that entry at place i. */
  lemma Unlucky(keys: seq<string>, i: nat) returns (w: World)
    requires i < |keys|
    ensures w.r.keys == keys && w.r.raw == Asking(keys, i) && Starts(w) && UnusedChannel(w.d, w.r.ch)
    ensures StreamsAt(w.d, keys) && StreamAt(w.d, keys[i]) != []
  {
    var d := OneEntry(keys[i], keys);
    w := World(d, Client(keys, Asking(keys, i), 0, 0, [], [], Registering));
  }

  lemma LastNeverMissed(keys: seq<string>, i: nat, w: World, v: World)
    requires LastOf(keys, i) && New(w) && w.r.keys == keys && Reaches(w, v)
    ensures !Missed(v, i)
  {
    var events: seq<BlockingRead.Event> :| AllPermitted(w, events) && v == RunEvents(w, events);
    SameKeys(w, events);
    NoLostWakeUp(w, events, i);
  }

  lemma OnceMissed(keys: seq<string>, i: nat) returns (w: World, v: World)
    requires i < |keys| && !LastOf(keys, i)
    ensures New(w) && w.r.keys == keys && Reaches(w, v) && Missed(v, i)
  {
    w := Unlucky(keys, i);
    v := RepeatedKeyWaits(w, i);
  }

  /** Over all requests and all runs: a wake-up for the ID at place i is never lost if and only if
      that place is the last of its key. */
  lemma WakeUpsExactly(keys: seq<string>, i: nat)
    requires i < |keys|
    ensures NeverMissed(keys, i) <==> LastOf(keys, i)
  {
    if LastOf(keys, i) {
      forall w: World, v: World | New(w) && w.r.keys == keys && Reaches(w, v) ensures !Missed(v, i) {
        LastNeverMissed(keys, i, w, v);
      }
    } else {
      var w, v := OnceMissed(keys, i);
    }
  }
}
