/** The server and its append-only file over whole runs: what a run of calls leaves in the file and
    sends to the replicas, and what a new server makes of that file, whole or cut by a crash. */
module Restart {
  import opened Resp
  import opened RespStream
  import opened RespReader
  import opened StoreModel
  import opened Commands
  import opened CommandNames
  import opened TextCommands
  import opened Aof
  import opened Replication
  import opened Cluster
  import opened ServerClass

  predicate FromClients(calls: seq<Call>) { forall i :: 0 <= i < |calls| ==> calls[i].conn.Some? }

  /** What a server has kept in its file. */
  function Kept(appendonly: bool, done: seq<Command>): string { if appendonly then EncodeAll(done) else "" }

  method ServeOne(server: Server, call: Call) returns (ghost more: seq<Command>)
    requires call.conn.Some?
    modifies server, server.store, server.repl
    ensures var e := Serve(old(server.store.Model()), call); server.store.Model() == e.d && more == e.persisted
    ensures server.aof == old(server.aof) + Kept(server.appendonly, more)
    ensures server.repl.Model() == PropagateAll(old(server.repl.Model()), more)
  {
    more := Serve(server.store.Model(), call).persisted;
    var _ := server.HandleCommand(call.conn.value, call.arr, call.env);
  }

  /** After `done`, what is left of a run is the run of the rest from d1. */
  predicate Remain(d: State, calls: seq<Call>, done: seq<Command>, d1: State, rest: seq<Call>) {
    Persisted(d, calls) == done + Persisted(d1, rest) && ServeAll(d, calls) == ServeAll(d1, rest)
  }

  lemma RunSplits(d: State, calls: seq<Call>)
    requires calls != []
    ensures var e := Serve(d, calls[0]);
            && Persisted(d, calls) == e.persisted + Persisted(e.d, calls[1..])
            && ServeAll(d, calls) == ServeAll(e.d, calls[1..])
  {
  }

  lemma RemainStep(d: State, calls: seq<Call>, done: seq<Command>, d1: State, rest: seq<Call>)
    requires rest != [] && Remain(d, calls, done, d1, rest)
    ensures var e := Serve(d1, rest[0]); Remain(d, calls, done + e.persisted, e.d, rest[1..])
  {
    var e := Serve(d1, rest[0]);
    RunSplits(d1, rest);
    assert done + (e.persisted + Persisted(e.d, rest[1..])) == done + e.persisted + Persisted(e.d, rest[1..]);
  }

  lemma DoneStep(r: Repl, file: string, appendonly: bool, done: seq<Command>, more: seq<Command>)
    ensures PropagateAll(r, done + more) == PropagateAll(PropagateAll(r, done), more)
    ensures file + Kept(appendonly, done + more) == file + Kept(appendonly, done) + Kept(appendonly, more)
  {
    EffectsAdd(r, done, more);
    Glue(file, EncodeAll(done), EncodeAll(more));
  }

  /** Clients issue calls to one server, one after another. */
  method ServeRun(server: Server, calls: seq<Call>)
    requires FromClients(calls)
    modifies server, server.store, server.repl
    ensures server.store.Model() == ServeAll(old(server.store.Model()), calls)
    ensures server.appendonly ==> server.aof == old(server.aof) + EncodeAll(Persisted(old(server.store.Model()), calls))
    ensures !server.appendonly ==> server.aof == old(server.aof)
    ensures Distinct(old(server.repl.replicas)) ==>
              SentTo(old(server.repl.Model()), server.repl.Model(),
                     EncodeAll(Persisted(old(server.store.Model()), calls)))
  {
    ghost var d, r, file := server.store.Model(), server.repl.Model(), server.aof;
    ghost var done: seq<Command> := [];
    var i := 0;
    assert calls[0..] == calls && done + Persisted(d, calls) == Persisted(d, calls);
    while i < |calls|
      invariant 0 <= i <= |calls|
      invariant Remain(d, calls, done, server.store.Model(), calls[i..])
      invariant server.aof == file + Kept(server.appendonly, done) && server.repl.Model() == PropagateAll(r, done)
    {
      assert calls[i..][0] == calls[i] && calls[i..][1..] == calls[i + 1..];
      RemainStep(d, calls, done, server.store.Model(), calls[i..]);
      ghost var more := ServeOne(server, calls[i]);
      DoneStep(r, file, server.appendonly, done, more);
      done := done + more;
      i := i + 1;
    }
    assert done + [] == done;
    if Distinct(r.replicas) { PropagatesAll(r, done); }
  }

  /** Two servers that share nothing. */
  ghost predicate Apart(a: Server, b: Server) { a != b && a.store != b.store && a.repl != b.repl }

  /** A run of a server that keeps an empty file, and a new server with the same data that replays
      this file: both hold the same data, and the replay ends without error. */
  method RunAndRestart(server: Server, calls: seq<Call>, next: Server, ghost env: Env, envs: seq<Env>)
    returns (clean: bool)
    requires Apart(server, next) && server.appendonly && server.aof == "" && FromClients(calls)
    requires DurableRun(server.store.Model(), calls, env) && SameData(server.store.Model(), next.store.Model())
    requires |envs| == |Persisted(server.store.Model(), calls)| && SameParser(envs, env)
    modifies server, server.store, server.repl, next, next.store, next.repl
    ensures server.store.Model() == ServeAll(old(server.store.Model()), calls)
    ensures SameData(server.store.Model(), next.store.Model()) && clean
  {
    ghost var d, r := server.store.Model(), next.store.Model();
    ServeRun(server, calls);
    var reader := new Reader(server.aof);
    assert server.aof == EncodeAll(Persisted(d, calls));
    DurableReplay(d, r, calls, env, envs);
    clean := next.ReplayAOF(reader, envs);
  }

  /** The same with a file cut by a crash: the new server holds the data that the old one had after
      m calls and, if the next is an EXEC, j of its commands. */
  method RunAndCrash(server: Server, calls: seq<Call>, cut: nat, next: Server, ghost env: Env, envs: seq<Env>)
    returns (clean: bool, ghost m: nat, ghost j: nat)
    requires Apart(server, next) && server.appendonly && server.aof == "" && FromClients(calls)
    requires DurableRun(server.store.Model(), calls, env) && SameData(server.store.Model(), next.store.Model())
    requires cut <= |EncodeAll(Persisted(server.store.Model(), calls))| && SameParser(envs, env)
    requires |envs| == Complete(Persisted(server.store.Model(), calls), cut)
    modifies server, server.store, server.repl, next, next.store, next.repl
    ensures m <= |calls| && SameData(During(old(server.store.Model()), calls, m, j), next.store.Model())
  {
    ghost var d, r := server.store.Model(), next.store.Model();
    ServeRun(server, calls);
    var reader := new Reader(server.aof[..cut]);
    assert server.aof == EncodeAll(Persisted(d, calls));
    m, j := CrashGivesEarlierData(d, r, calls, env, cut, envs);
    clean := next.ReplayAOF(reader, envs);
  }

  /** Clients outside transactions that set texts without a time to live. */
  predicate SetsOnly(queues: map<Conn, seq<Command>>, calls: seq<Call>) {
    forall i :: 0 <= i < |calls| ==> IsPlainSet(queues, calls[i])
  }

  predicate IsPlainSet(queues: map<Conn, seq<Command>>, call: Call) {
    && call.conn.Some? && call.conn.value !in queues && Names(call.arr, "SET") && |call.arr| == 3
    && call.arr[1].Str? && call.arr[2].Str? && Fits(Arr(call.arr))
  }

  function CommandsOf(calls: seq<Call>): seq<Command> {
    seq(|calls|, i requires 0 <= i < |calls| => calls[i].arr)
  }

  /** Such a run is durable. */
  lemma {:induction false} SetsAreDurable(d: State, calls: seq<Call>, env: Env)
    requires SetsOnly(d.transactions, calls)
    requires forall i :: 0 <= i < |calls| ==> calls[i].env.parseFloat == env.parseFloat
    ensures DurableRun(d, calls, env)
    decreases |calls|
  {
    if calls != [] {
      OneSet(d, calls[0], env);
      SetsAreDurable(Serve(d, calls[0]).d, calls[1..], env);
      DurableFirst(d, calls, env);
    }
  }

  /** It logs its commands in order. */
  lemma {:induction false} SetsAreLogged(d: State, calls: seq<Call>)
    requires SetsOnly(d.transactions, calls)
    ensures Persisted(d, calls) == CommandsOf(calls)
    decreases |calls|
  {
    if calls != [] {
      OneSet(d, calls[0], calls[0].env);
      RunSplits(d, calls);
      SetsAreLogged(Serve(d, calls[0]).d, calls[1..]);
      assert CommandsOf(calls) == [calls[0].arr] + CommandsOf(calls[1..]);
    }
  }

  lemma DurableFirst(d: State, calls: seq<Call>, env: Env)
    requires calls != [] && DurableCall(d, calls[0], env) && DurableRun(Serve(d, calls[0]).d, calls[1..], env)
    ensures DurableRun(d, calls, env)
  {
  }

  lemma OneSet(d: State, call: Call, env: Env)
    requires IsPlainSet(d.transactions, call) && call.env.parseFloat == env.parseFloat
    ensures Serve(d, call).persisted == [call.arr] && Serve(d, call).d.transactions == d.transactions
    ensures DurableCall(d, call, env)
  {
    ServeSET(d, call.conn.value, call.arr, call.env);
    SetKeepsQueues(d, call.conn.value, call.arr, call.env);
    assert Textual(Arr(call.arr)) && Durable(call.arr, call.env);
  }

  // ---- What the replicas get ----------------------------------------------------------------------

  /** The count grows by the bytes of the commands; each replica is sent exactly these bytes, and
      nobody else anything. */
  ghost predicate SentTo(m: Repl, m': Repl, bytes: string) {
    && m'.masterOffset == m.masterOffset + |bytes|
    && m'.replicas == m.replicas && m'.replicaOffsets == m.replicaOffsets
    && forall c :: Out(m', c) == Out(m, c) + if c in m.replicas then bytes else ""
  }

  lemma {:induction false} PropagatesAll(m: Repl, cmds: seq<Command>)
    requires Distinct(m.replicas)
    ensures SentTo(m, PropagateAll(m, cmds), EncodeAll(cmds))
    decreases |cmds|
  {
    if cmds != [] {
      var m1 := Propagate(m, cmds[0]);
      PropagatesOne(m, cmds[0]);
      PropagatesAll(m1, cmds[1..]);
      SentTwice(m, m1, PropagateAll(m, cmds), EncodeArray(cmds[0]), EncodeAll(cmds[1..]));
    }
  }

  lemma SentTwice(m: Repl, m1: Repl, m2: Repl, a: string, b: string)
    requires SentTo(m, m1, a) && SentTo(m1, m2, b)
    ensures SentTo(m, m2, a + b)
  {
    forall c ensures Out(m2, c) == Out(m, c) + if c in m.replicas then a + b else "" {
      OutTwice(Out(m, c), Out(m1, c), Out(m2, c), c in m.replicas, a, b);
    }
  }

  lemma OutTwice(o: string, o1: string, o2: string, sent: bool, a: string, b: string)
    requires o1 == o + (if sent then a else "") && o2 == o1 + if sent then b else ""
    ensures o2 == o + if sent then a + b else ""
  {
    if sent { Glue(o, a, b); } else { assert o + "" + "" == o + ""; }
  }

  lemma PropagatesOne(m: Repl, arr: Command)
    requires Distinct(m.replicas)
    ensures SentTo(m, Propagate(m, arr), EncodeArray(arr))
  {
    PropagateFor(m, arr, 0);
    forall c ensures Out(Propagate(m, arr), c) == Out(m, c) + if c in m.replicas then EncodeArray(arr) else "" {
      PropagateFor(m, arr, c);
    }
  }
}
