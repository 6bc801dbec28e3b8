/** A replica follows its master: its data is always the master's data at some moment of its run,
    and the master's current data once nothing is in flight. */
module Convergence {
  import opened Resp
  import opened RespStream
  import opened StoreModel
  import opened Commands
  import opened Aof
  import opened Replication
  import opened Cluster

  lemma {:induction false} ReplaySnoc(r: State, cmds: seq<Command>, envs: seq<Env>, arr: Command, env: Env)
    requires |envs| == |cmds| && arr != []
    ensures ReplayValues(r, Read(cmds + [arr]), envs + [env])
         == Execute(ReplayValues(r, Read(cmds), envs), NormalizeAll(arr), env)
    decreases |cmds|
  {
    if cmds == [] {
      ReadSingle(arr);
      assert cmds + [arr] == [arr] && envs + [env] == [env];
      ReplaySingle(r, Arr(NormalizeAll(arr)), env);
    } else {
      assert (cmds + [arr])[1..] == cmds[1..] + [arr] && (envs + [env])[1..] == envs[1..] + [env];
      ReplaySnoc(ReplayOne(r, Arr(NormalizeAll(cmds[0])), envs[0]), cmds[1..], envs[1..], arr, env);
      ReplayHead(r, cmds, envs);
      ReplayHead(r, cmds + [arr], envs + [env]);
    }
  }

  lemma ReplayHead(r: State, cmds: seq<Command>, envs: seq<Env>)
    requires cmds != [] && |envs| == |cmds|
    ensures ReplayValues(r, Read(cmds), envs)
         == ReplayValues(ReplayOne(r, Arr(NormalizeAll(cmds[0])), envs[0]), Read(cmds[1..]), envs[1..])
  {
    assert Read(cmds)[0] == Arr(NormalizeAll(cmds[0])) && Read(cmds)[1..] == Read(cmds[1..]);
  }

  /** A replica executes what a replay of the same commands would. */
  lemma {:induction false} ExecutedIsReplay(first: State, cmds: seq<Command>, envs: seq<Env>)
    requires |envs| == |cmds| && forall i :: 0 <= i < |cmds| ==> cmds[i] != []
    ensures Executed(Execute, first, cmds, envs) == ReplayValues(first, Read(cmds), envs)
    decreases |cmds|
  {
    if cmds != [] {
      var n := |cmds| - 1;
      assert cmds[..n] + [cmds[n]] == cmds && envs[..n] + [envs[n]] == envs;
      ExecutedIsReplay(first, cmds[..n], envs[..n]);
      ReplaySnoc(first, cmds[..n], envs[..n], cmds[n], envs[n]);
    }
  }

  function WritesIn(events: seq<Event>): seq<Command> {
    if events == [] then []
    else (if events[0].Write? then [events[0].arr] else []) + WritesIn(events[1..])
  }

  /** All the writes of a link's history. */
  function AllWrites(l: Link): seq<Command> { Writes(l.history, |l.history|) }

  lemma NotedWrites(l: Link, arr: Command)
    ensures AllWrites(Noted(l, arr)) == AllWrites(l) + if IsGetAck(arr) then [] else [arr]
  {
    PrefixStable(l.history, arr, |l.history|);
  }

  /** A link that is still open has received exactly the added writes. */
  predicate Gained(l: Link, l': Link, added: seq<Command>) {
    l'.open ==> l.open && AllWrites(l') == AllWrites(l) + added
  }

  lemma GainedNothing(l: Link, l': Link)
    requires l'.history == l.history && (l'.open ==> l.open)
    ensures Gained(l, l', [])
  {
    assert AllWrites(l) + [] == AllWrites(l);
  }

  lemma GainedMore(l: Link, l1: Link, l2: Link, a: seq<Command>, b: seq<Command>)
    requires Gained(l, l1, a) && Gained(l1, l2, b)
    ensures Gained(l, l2, a + b)
  {
    assert AllWrites(l) + a + b == AllWrites(l) + (a + b);
  }

  lemma WriteGains(m: Repl, c: Conn, l: Link, arr: Command)
    requires (l.open <==> c in m.replicas) && !IsGetAck(arr)
    ensures Gained(l, AfterWrite(m, c, l, arr), [arr])
  {
    NotedWrites(l, arr);
  }

  lemma AskGains(l: Link)
    ensures Gained(l, Noted(l, GETACK), [])
  {
    GetAckIs();
    NotedWrites(l, GETACK);
  }

  lemma WriteCase(exec: Executor, w: World, arr: Command, c: Conn)
    requires Permitted(w, Write(arr)) && c in w.links && (w.links[c].open <==> c in w.m.replicas)
    ensures c in StepWith(exec, w, Write(arr)).links
    ensures Gained(w.links[c], StepWith(exec, w, Write(arr)).links[c], [arr])
  {
    GetAckIs();
    WriteGains(w.m, c, w.links[c], arr);
  }

  lemma ReplicaCase(exec: Executor, w: World, c': Conn, env: Env, c: Conn, l': Link)
    requires c' in w.links && c in w.links && l' == ReplicaStep(exec, w.links[c'], Out(w.m, c'), env)
    requires SameHistory(w.links[c'], l')
    ensures Gained(w.links[c], w.links[c' := l'][c], [])
  {
    GainedNothing(w.links[c], w.links[c' := l'][c]);
  }

  lemma OtherCase(exec: Executor, w: World, e: Event, c: Conn)
    requires Permitted(w, e) && c in w.links && !e.Write? && !e.Replica?
    ensures c in StepWith(exec, w, e).links && Gained(w.links[c], StepWith(exec, w, e).links[c], [])
  {
    if e.AskAck? && e.c == c {
      AskGains(w.links[c]);
    } else {
      GainedNothing(w.links[c], StepWith(exec, w, e).links[c]);
    }
  }

  lemma StepGains(w: World, e: Event, c: Conn)
    requires Inv(w) && Permitted(w, e) && c in w.links
    ensures c in Step(w, e).links && Gained(w.links[c], Step(w, e).links[c], if e.Write? then [e.arr] else [])
  {
    if e.Write? {
      LinkOf(w, c);
      WriteCase(Execute, w, e.arr, c);
    } else if e.Replica? {
      StepSame(w, e.c, e.env);
      ReplicaCase(Execute, w, e.c, e.env, c, ReplicaStep(Execute, w.links[e.c], Out(w.m, e.c), e.env));
    } else {
      OtherCase(Execute, w, e, c);
    }
  }

  lemma {:induction false} RunGains(w: World, events: seq<Event>, c: Conn)
    requires Inv(w) && AllPermitted(w, events) && c in w.links
    ensures Later(w, Run(w, events), c) && Gained(w.links[c], Run(w, events).links[c], WritesIn(events))
    decreases |events|
  {
    RunGrows(w, events, c);
    if events == [] {
      GainedNothing(w.links[c], w.links[c]);
    } else {
      var w1 := Step(w, events[0]);
      StepKeeps(w, events[0]);
      StepGains(w, events[0], c);
      RunGains(w1, events[1..], c);
      GainedMore(w.links[c], w1.links[c], Run(w, events).links[c],
                 if events[0].Write? then [events[0].arr] else [], WritesIn(events[1..]));
    }
  }

  lemma {:induction false} WritesNamed(h: seq<Command>, n: nat)
    requires HistoryOk(h) && n <= |h|
    ensures forall i :: 0 <= i < |Writes(h, n)| ==> Writes(h, n)[i] != []
  {
    if n > 0 {
      WritesNamed(h, n - 1);
      assert Sent(h[n - 1]);
    }
  }

  lemma StoreIsReplay(w: World, c: Conn)
    requires Inv(w) && c in w.links
    ensures var l := w.links[c];
            && l.done <= |l.history| && |l.envs| == |Writes(l.history, l.done)|
            && l.store == ReplayValues(l.first, Read(Writes(l.history, l.done)), l.envs)
            && Writes(l.history, l.done) <= AllWrites(l)
  {
    LinkOf(w, c);
    var l := w.links[c];
    WritesNamed(l.history, l.done);
    ExecutedIsReplay(l.first, Writes(l.history, l.done), l.envs);
    WritesGrow(l.history, l.done, |l.history|);
  }

  lemma SomethingEncoded(cmds: seq<Command>)
    ensures cmds != [] ==> EncodeAll(cmds) != ""
  {
    if cmds != [] { assert |EncodeArray(cmds[0])| > 0; }
  }

  /** Nothing in flight: everything written has been processed. */
  lemma DrainedIsDone(w: World, c: Conn)
    requires Inv(w) && c in w.links && Wire(w, c) == ""
    ensures w.links[c].done == |w.links[c].history|
  {
    LinkOf(w, c);
    var l := w.links[c];
    InFlight(l.history, l.done);
    SomethingEncoded(l.history[l.done..]);
  }

  /** Let a replica attach with the master's initial data, and let the master serve calls from
      then on, propagating what they persist. Whatever interleaving of propagation, GETACKs and
      the replica's own steps: the replica's data is the master's after some prefix of the
      calls, or within an EXEC after some of its commands, and after all of them when its connection is drained. */
  lemma ReplicaConverges(w: World, events: seq<Event>, v: World, c: Conn, d: State, calls: seq<Call>, env: Env)
    returns (m: nat, j: nat)
    requires Reachable(w) && AllPermitted(w, events) && v == Run(w, events)
    requires c in w.links && w.links[c].history == [] && c in v.links && v.links[c].open
    requires WritesIn(events) == Persisted(d, calls) && DurableRun(d, calls, env)
    requires SameData(d, w.links[c].store) && SameParser(v.links[c].envs, env)
    ensures m <= |calls| && SameData(During(d, calls, m, j), v.links[c].store)
    ensures Wire(v, c) == "" ==> SameData(ServeAll(d, calls), v.links[c].store)
  {
    ReachableInv(w);
    RunFacts(w, events, v, c);
    FreshRun(w, v, c, WritesIn(events));
    m, j := LinkConverges(v, c, d, calls, env);
  }

  lemma RunFacts(w: World, events: seq<Event>, v: World, c: Conn)
    requires Inv(w) && AllPermitted(w, events) && c in w.links && v == Run(w, events)
    ensures Inv(v) && Later(w, v, c) && Gained(w.links[c], v.links[c], WritesIn(events))
  {
    RunKeeps(w, events);
    RunGains(w, events, c);
  }

  lemma FreshRun(w: World, v: World, c: Conn, added: seq<Command>)
    requires Inv(w) && Later(w, v, c) && Gained(w.links[c], v.links[c], added)
    requires w.links[c].history == [] && v.links[c].open
    ensures AllWrites(v.links[c]) == added && v.links[c].first == w.links[c].store
  {
    FreshStore(w, c);
    assert [] + added == added;
  }

  lemma LinkConverges(v: World, c: Conn, d: State, calls: seq<Call>, env: Env) returns (m: nat, j: nat)
    requires Inv(v) && c in v.links && AllWrites(v.links[c]) == Persisted(d, calls)
    requires DurableRun(d, calls, env) && SameData(d, v.links[c].first) && SameParser(v.links[c].envs, env)
    ensures m <= |calls| && SameData(During(d, calls, m, j), v.links[c].store)
    ensures Wire(v, c) == "" ==> SameData(ServeAll(d, calls), v.links[c].store)
  {
    var l := v.links[c];
    StoreIsReplay(v, c);
    m, j := DataFollows(d, l.first, calls, env, Writes(l.history, l.done), l.envs);
    if Wire(v, c) == "" {
      DrainedIsDone(v, c);
      ReplayMatches(d, l.first, calls, env, l.envs);
    }
  }

  lemma FreshStore(w: World, c: Conn)
    requires Inv(w) && c in w.links && w.links[c].history == []
    ensures w.links[c].store == w.links[c].first && AllWrites(w.links[c]) == []
  {
    LinkOf(w, c);
  }

  lemma DataFollows(d: State, r: State, calls: seq<Call>, env: Env, cmds: seq<Command>, envs: seq<Env>)
    returns (m: nat, j: nat)
    requires SameData(d, r) && DurableRun(d, calls, env) && cmds <= Persisted(d, calls)
    requires |envs| == |cmds| && SameParser(envs, env)
    ensures m <= |calls| && SameData(During(d, calls, m, j), ReplayValues(r, Read(cmds), envs))
  {
    assert Persisted(d, calls)[..|cmds|] == cmds;
    m, j := PrefixMatches(d, r, calls, env, |cmds|, envs);
  }
}
