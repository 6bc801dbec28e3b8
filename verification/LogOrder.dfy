/** A handler changes the store in one section and logs its command later, so that two clients can
    be logged in another order than they were stored. When replay of SETs is still right. */
module LogOrder {
  import opened Resp
  import opened RespStream
  import opened StreamIds
  import opened StoreModel
  import opened Commands
  import opened Aof

  /** The two sections of a SET without a time to live, as they interleave. */
  datatype Turn = Stores(key: string, value: string) | Logs(key: string, value: string)

  type Sets = seq<(string, string)>

  function StoredBy(run: seq<Turn>): Sets {
    if run == [] then []
    else (if run[0].Stores? then [(run[0].key, run[0].value)] else []) + StoredBy(run[1..])
  }

  function LoggedBy(run: seq<Turn>): Sets {
    if run == [] then []
    else (if run[0].Logs? then [(run[0].key, run[0].value)] else []) + LoggedBy(run[1..])
  }

  /** Every SET of the run has done both. */
  predicate Complete(run: seq<Turn>) { multiset(StoredBy(run)) == multiset(LoggedBy(run)) }

  function StoreAll(d: State, sets: Sets): State
    decreases |sets|
  {
    if sets == [] then d else StoreAll(SetValue(d, sets[0].0, Text(sets[0].1)), sets[1..])
  }

  /** The store after a run: only the first sections touch it. */
  function AfterRun(d: State, run: seq<Turn>): State
    decreases |run|
  {
    if run == [] then d
    else AfterRun(if run[0].Stores? then SetValue(d, run[0].key, Text(run[0].value)) else d, run[1..])
  }

  function SetCommands(sets: Sets): (cmds: seq<Command>)
    ensures |cmds| == |sets|
  {
    if sets == [] then [] else [SetOf(sets[0].0, sets[0].1)] + SetCommands(sets[1..])
  }

  lemma {:induction false} AfterRunIs(d: State, run: seq<Turn>)
    ensures AfterRun(d, run) == StoreAll(d, StoredBy(run))
    decreases |run|
  {
    if run != [] {
      var sets := StoredBy(run);
      if run[0].Stores? {
        assert sets[1..] == StoredBy(run[1..]);
        AfterRunIs(SetValue(d, run[0].key, Text(run[0].value)), run[1..]);
      } else {
        assert sets == StoredBy(run[1..]);
        AfterRunIs(d, run[1..]);
      }
    }
  }

  /** The value of a key after SETs, if one of them was of it. */
  function LastSet(sets: Sets, key: string): Option<string> {
    if sets == [] then None
    else if sets[|sets| - 1].0 == key then Some(sets[|sets| - 1].1)
    else LastSet(sets[..|sets| - 1], key)
  }

  lemma {:induction false} StoreSnoc(d: State, sets: Sets, key: string, value: string)
    ensures StoreAll(d, sets + [(key, value)]) == SetValue(StoreAll(d, sets), key, Text(value))
    decreases |sets|
  {
    var all := sets + [(key, value)];
    if sets == [] {
      assert all[1..] == [];
    } else {
      assert all[1..] == sets[1..] + [(key, value)];
      StoreSnoc(SetValue(d, sets[0].0, Text(sets[0].1)), sets[1..], key, value);
    }
  }

  /** What a key holds after SETs. */
  lemma {:induction false} StoreAllAt(d: State, sets: Sets, key: string)
    ensures var d' := StoreAll(d, sets);
            match LastSet(sets, key)
            case Some(value) => Lookup(d'.cache, key) == Some(Text(value)) && key !in d'.expiry
            case None =>
              Lookup(d'.cache, key) == Lookup(d.cache, key) && Lookup(d'.expiry, key) == Lookup(d.expiry, key)
    decreases |sets|
  {
    if sets != [] {
      var n := |sets| - 1;
      var last := sets[n];
      assert sets == sets[..n] + [(last.0, last.1)];
      StoreSnoc(d, sets[..n], last.0, last.1);
      StoreAllAt(d, sets[..n], key);
    }
  }

  lemma {:induction false} SetOrNot(sets: Sets, key: string)
    ensures LastSet(sets, key).Some? <==> exists value :: (key, value) in multiset(sets)
  {
    if sets != [] {
      var n := |sets| - 1;
      SetOrNot(sets[..n], key);
      assert sets == sets[..n] + [sets[n]];
      assert sets[n] == (sets[n].0, sets[n].1);
    }
  }

  predicate SameLast(a: Sets, b: Sets, key: string) { LastSet(a, key) == LastSet(b, key) }

  lemma SameMaps<V>(a: map<string, V>, b: map<string, V>)
    requires forall k :: Lookup(a, k) == Lookup(b, k)
    ensures a == b
  {
    forall k ensures k in a <==> k in b { assert Lookup(a, k) == Lookup(b, k); }
    forall k | k in a ensures a[k] == b[k] { assert Lookup(a, k) == Lookup(b, k); }
  }

  /** Two orders of the same SETs give the same data if and only if every key is set last to the
      same value. */
  lemma OrdersAgree(d: State, r: State, a: Sets, b: Sets)
    requires SameData(d, r) && multiset(a) == multiset(b)
    ensures SameData(StoreAll(d, a), StoreAll(r, b)) <==> forall key :: SameLast(a, b, key)
  {
    var x, y := StoreAll(d, a), StoreAll(r, b);
    forall key ensures SameLast(a, b, key) <==> Lookup(x.cache, key) == Lookup(y.cache, key)
      ensures Lookup(x.expiry, key) == Lookup(y.expiry, key)
    {
      StoreAllAt(d, a, key);
      StoreAllAt(r, b, key);
      SetOrNot(a, key);
      SetOrNot(b, key);
    }
    SameMaps(x.expiry, y.expiry);
    if forall key :: SameLast(a, b, key) {
      forall key ensures Lookup(x.cache, key) == Lookup(y.cache, key) { assert SameLast(a, b, key); }
      SameMaps(x.cache, y.cache);
    }
  }

  lemma {:induction false} ReplaySets(r: State, sets: Sets, envs: seq<Env>)
    requires |envs| == |sets|
    ensures ReplayValues(r, Read(SetCommands(sets)), envs) == StoreAll(r, sets)
    decreases |sets|
  {
    if sets != [] {
      var arr := SetOf(sets[0].0, sets[0].1);
      assert SetCommands(sets)[1..] == SetCommands(sets[1..]);
      assert Textual(Arr(arr));
      NormalizeAllTextual(arr);
      SetOfIs(r, None, sets[0].0, sets[0].1, envs[0]);
      ReplayFirst(r, SetCommands(sets), envs);
      ReplaySets(SetValue(r, sets[0].0, Text(sets[0].1)), sets[1..], envs[1..]);
    }
  }

  /** Replaying the log of a complete run of SETs, interleaved in any way, gives the data of the
      store if and only if for every key the last value stored is the last value logged. */
  lemma ReplayFollowsOrder(d: State, r: State, run: seq<Turn>, envs: seq<Env>)
    requires SameData(d, r) && Complete(run) && FitsAll(SetCommands(LoggedBy(run))) && |envs| == |LoggedBy(run)|
    ensures var bytes := EncodeAll(SetCommands(LoggedBy(run)));
            && |Decode(bytes).0| == |envs|
            && (SameData(AfterRun(d, run), Replay(r, bytes, envs).0)
                <==> forall key :: SameLast(StoredBy(run), LoggedBy(run), key))
  {
    DecodeAll(SetCommands(LoggedBy(run)));
    ReplaySets(r, LoggedBy(run), envs);
    AfterRunIs(d, run);
    OrdersAgree(d, r, StoredBy(run), LoggedBy(run));
  }

  /** Two clients that set one key at a time. */
  function Crossed(key: string, first: string, second: string): seq<Turn> {
    [Stores(key, first), Stores(key, second), Logs(key, second), Logs(key, first)]
  }

  /** Crossed, replay gives the other value. */
  lemma CrossedDiffer(key: string, first: string, second: string)
    ensures var run := Crossed(key, first, second);
            && Complete(run)
            && ((forall k :: SameLast(StoredBy(run), LoggedBy(run), k)) <==> first == second)
  {
    var run := Crossed(key, first, second);
    var a, b := (key, first), (key, second);
    CrossedOrders(key, first, second);
    assert LastSet([a, b], key) == Some(second) && LastSet([b, a], key) == Some(first);
    if first != second { assert !SameLast([a, b], [b, a], key); }
  }

  lemma CrossedOrders(key: string, first: string, second: string)
    ensures var run := Crossed(key, first, second);
            StoredBy(run) == [(key, first), (key, second)] && LoggedBy(run) == [(key, second), (key, first)]
  {
    var run := Crossed(key, first, second);
    assert run[1..][1..][1..][1..] == [];
    assert run[1..][1..][1..] == [Logs(key, first)];
    assert run[1..][1..] == [Logs(key, second), Logs(key, first)];
    assert run[1..] == [Stores(key, second), Logs(key, second), Logs(key, first)];
    assert LoggedBy(run[1..][1..][1..]) == [(key, first)] && StoredBy(run[1..][1..][1..]) == [];
    assert LoggedBy(run[1..][1..]) == [(key, second), (key, first)] && StoredBy(run[1..][1..]) == [];
    assert LoggedBy(run[1..]) == [(key, second), (key, first)] && StoredBy(run[1..]) == [(key, second)];
  }
}
