/** What the transaction commands mean to a client, in terms of their arguments. */
module TransactionCommands {
  import opened RespStream
  import opened StoreModel
  import opened Commands
  import opened CommandNames
  import opened SetCommands

  /** MULTI opens an empty queue and changes nothing else. */
  lemma MultiOpens(d: State, c: Conn, arr: Command, env: Env)
    requires Sends(d, c, arr, "MULTI") && |arr| == 1
    ensures ServeFor(d, c, arr, env) == Effect(d.(transactions := d.transactions[c := []]), [], [OK])
  {
    KindsByName(arr, "MULTI");
  }

  /** In a transaction every named command but these five is put at the end of the queue and answered
      QUEUED; nothing else changes. */
  lemma QueuesOthers(d: State, c: Conn, arr: Command, env: Env)
    requires c in d.transactions && arr != [] && arr[0].Str?
    requires !EndsOrAsks(arr)
    ensures ServeFor(d, c, arr, env)
         == Effect(d.(transactions := d.transactions[c := d.transactions[c] + [arr]]), [], [Queued])
  {
    GateIs(arr);
  }

  /** The commands that are never queued. */
  predicate EndsOrAsks(arr: Command) {
    || Names(arr, "MULTI") || Names(arr, "EXEC") || Names(arr, "DISCARD") || Names(arr, "WATCH") || Names(arr, "QUIT")
  }

  lemma GateIs(arr: Command)
    ensures PassesGate(KindOf(arr)) <==> EndsOrAsks(arr)
  {
  }

  /** WATCH makes the client a watcher of every key it names, from the first argument on. */
  lemma WatchNames(d: State, c: Conn, arr: Command, env: Env, k: string)
    requires Sends(d, c, arr, "WATCH") && |arr| >= 2
    ensures var e := ServeFor(d, c, arr, env);
            && e.d == d.(watchedKeys := e.d.watchedKeys) && e.persisted == [] && e.replies == [OK]
            && Watchers(e.d, k) == Watchers(d, k) + if MentionsFrom(arr, 1, k) then {c} else {}
  {
    KindsByName(arr, "WATCH");
    ServeControl(d, c, arr, env);
    WatchAdds(d, c, StringsFrom(arr, 1), k);
    StringsMention(arr, 1, k);
  }

  lemma {:induction false} WatchAdds(d: State, c: Conn, keys: seq<string>, k: string)
    ensures var d' := Watch(d, c, keys);
            d' == d.(watchedKeys := d'.watchedKeys) && Watchers(d', k) == Watchers(d, k) + if k in keys then {c} else {}
    decreases |keys|
  {
    if keys != [] {
      var d1 := d.(watchedKeys := d.watchedKeys[keys[0] := Watchers(d, keys[0]) + {c}]);
      assert Watchers(d1, k) == Watchers(d, k) + if k == keys[0] then {c} else {};
      WatchAdds(d1, c, keys[1..], k);
    }
  }

  /** DISCARD drops the queue, its watches and its dirty flag, and runs nothing. */
  lemma DiscardDrops(d: State, c: Conn, arr: Command, env: Env, k: string)
    requires c in d.transactions && Names(arr, "DISCARD") && |arr| == 1
    ensures var e := ServeFor(d, c, arr, env);
            && e.d == d.(transactions := d.transactions - {c}, watchedKeys := e.d.watchedKeys,
                         dirtyClients := d.dirtyClients - {c})
            && Watchers(e.d, k) == Watchers(d, k) - {c} && e.persisted == [] && e.replies == [OK]
  {
    KindsByName(arr, "DISCARD");
    ServeControl(d, c, arr, env);
  }

  /** EXEC of a client with a conflict answers null; the queue, its watches and its flag go, and
      nothing of it runs. */
  lemma ExecRefuses(d: State, c: Conn, arr: Command, env: Env, k: string)
    requires c in d.transactions && c in d.dirtyClients && Names(arr, "EXEC") && |arr| == 1
    ensures var e := ServeFor(d, c, arr, env);
            && e.d == d.(transactions := d.transactions - {c}, watchedKeys := e.d.watchedKeys,
                         dirtyClients := d.dirtyClients - {c})
            && Watchers(e.d, k) == Watchers(d, k) - {c} && e.persisted == [] && e.replies == [NullArray]
  {
    KindsByName(arr, "EXEC");
    ServeControl(d, c, arr, env);
  }
}
