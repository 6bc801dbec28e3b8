/** The append-only log: replaying what a run logged gives the run's data back, and after a crash
    any byte prefix of it gives the data after some prefix of the run. */
module Aof {
  import opened Strconv
  import opened Resp
  import opened RespStream
  import opened StreamIds
  import opened StoreModel
  import opened Commands

  // ---- Replay ------------------------------------------------------------------------------

  /** One value read by replayAOFCommands: handled without a client, or skipped. */
  function ReplayOne(d: State, v: Value, env: Env): State {
    if v.Arr? && v.items != [] then Handle(d, None, v.items, env).d else d
  }

  /** The replay loop; every command reads the clock for itself. */
  function ReplayValues(d: State, values: seq<Value>, envs: seq<Env>): State
    requires |envs| == |values|
    decreases |values|
  {
    if values == [] then d else ReplayValues(ReplayOne(d, values[0], envs[0]), values[1..], envs[1..])
  }

  /** The loop ends without error on an error whose text is EOF. */
  predicate EndsCleanly(f: Failure) { f == EOF || f == ErrorReply("EOF") }

  /** replayAOFCommands on the bytes of the log: the store, and whether it ends without error. */
  function Replay(d: State, bytes: string, envs: seq<Env>): (State, bool)
    requires |envs| == |Decode(bytes).0|
  {
    (ReplayValues(d, Decode(bytes).0, envs), EndsCleanly(Decode(bytes).1))
  }

  // ---- The commands that survive -------------------------------------------------------------

  predicate ScoresParse(arr: Command, env: Env) {
    forall i :: 2 <= i < |arr| && i % 2 == 0 ==> env.parseFloat(Arg(arr, i)).Some?
  }

  /** An array without integers that is a SET without time to live, an INCR, LPOP or RPOP, or a
      ZADD whose scores all parse. */
  predicate Durable(arr: Command, env: Env) {
    && Textual(Arr(arr)) && Fits(Arr(arr))
    && match KindOf(arr)
       case SET => ParseTTL(arr).None?
       case ZADD => ScoresParse(arr, env)
       case INCR | LPOP | RPOP => true
       case _ => false
  }

  predicate Pops(arr: Command) { KindOf(arr).LPOP? || KindOf(arr).RPOP? }

  /** A pop is of a key that has no deadline at that moment, because replay happens at another
      time. */
  predicate Lasting(d: State, arr: Command) { Pops(arr) ==> Arg(arr, 1) !in d.expiry }

  predicate SameData(d: State, r: State) { r.cache == d.cache && r.expiry == d.expiry }

  /** Nothing is logged and no data changes. */
  predicate Quiet(d: State, e: Effect) { e.persisted == [] && SameData(d, e.d) }

  ghost predicate DurableStep(d: State, c: Conn, arr: Command, env: Env) {
    (Durable(arr, env) && Lasting(d, arr)) || Quiet(d, Data(d, Some(c), arr, env))
  }

  ghost predicate DurableQueue(d: State, c: Conn, queue: seq<Command>, env: Env)
    decreases |queue|
  {
    || queue == []
    || (DurableStep(d, c, queue[0], env) && DurableQueue(Data(d, Some(c), queue[0], env).d, c, queue[1..], Next(env)))
  }

  /** An EXEC that runs its queue. */
  predicate Commits(d: State, call: Call) {
    && call.conn.Some? && KindOf(call.arr).EXEC? && |call.arr| == 1
    && call.conn.value in d.transactions && call.conn.value !in d.dirtyClients
  }

  /** Where the queue starts. */
  function Started(d: State, c: Conn): State { Unwatch(ClearTx(d, c), c) }

  /** A client outside a transaction issues such a command, or an EXEC runs a queue of them; other
      calls, and other commands of the queue, are quiet. */
  ghost predicate DurableCall(d: State, call: Call, env: Env) {
    && call.env.parseFloat == env.parseFloat
    && (|| Quiet(d, Serve(d, call))
        || (call.conn.Some? && call.conn.value !in d.transactions
            && Durable(call.arr, call.env) && Lasting(d, call.arr))
        || (Commits(d, call)
            && DurableQueue(Started(d, call.conn.value), call.conn.value, d.transactions[call.conn.value], call.env)))
  }

  ghost predicate DurableRun(d: State, calls: seq<Call>, env: Env)
    decreases |calls|
  {
    calls == [] || (DurableCall(d, calls[0], env) && DurableRun(Serve(d, calls[0]).d, calls[1..], env))
  }

  // ---- One command ----------------------------------------------------------------------------

  /** What the log needs from a step: it is logged with the same effect on the data at replay,
      or not logged without any. */
  predicate Logged(e: Effect, d: State, replayed: State, arr: Command) {
    (e.persisted == [] && SameData(d, e.d)) || (e.persisted == [arr] && SameData(e.d, replayed))
  }

  lemma SetValueSame(d: State, r: State, key: string, value: Datum)
    requires SameData(d, r)
    ensures SameData(SetValue(d, key, value), SetValue(r, key, value))
  {
  }

  lemma SETLogged(d: State, r: State, arr: Command, env: Env, env2: Env)
    requires SameData(d, r) && ParseTTL(arr).None?
    ensures Logged(ExecSET(d, arr, env), d, ExecSET(r, arr, env2).d, arr)
  {
    SetValueSame(d, r, Arg(arr, 1), Text(Arg(arr, 2)));
  }

  lemma IncrSame(d: State, r: State, key: string)
    requires SameData(d, r)
    ensures Incr(r, key).1 == Incr(d, key).1 && SameData(Incr(d, key).0, Incr(r, key).0)
    ensures Incr(d, key).1.None? ==> Incr(d, key).0 == d
  {
  }

  lemma INCRLogged(d: State, r: State, arr: Command)
    requires SameData(d, r)
    ensures Logged(ExecINCR(d, arr), d, ExecINCR(r, arr).d, arr)
  {
    IncrSame(d, r, Arg(arr, 1));
  }

  lemma GetLasting(d: State, key: string, now: int)
    requires key !in d.expiry
    ensures Get(d, key, now) == (d, Lookup(d.cache, key))
  {
  }

  predicate Popped(reply: Reply) { reply.Bulk? || reply.BulkArray? }

  lemma LPopSame(d: State, r: State, key: string, count: int, now: int, now2: int)
    requires SameData(d, r) && key !in d.expiry
    ensures LPop(r, key, count, now2).1 == LPop(d, key, count, now).1
    ensures SameData(LPop(d, key, count, now).0, LPop(r, key, count, now2).0)
    ensures !Popped(LPop(d, key, count, now).1) ==> LPop(d, key, count, now).0 == d
  {
    GetLasting(d, key, now);
    GetLasting(r, key, now2);
    var left := TakeFront(Lookup(d.cache, key), count).1;
    if left.Some? { SetValueSame(d, r, key, List(left.value)); }
  }

  lemma RPopSame(d: State, r: State, key: string, now: int, now2: int)
    requires SameData(d, r) && key !in d.expiry
    ensures RPop(r, key, now2).1 == RPop(d, key, now).1
    ensures SameData(RPop(d, key, now).0, RPop(r, key, now2).0)
    ensures !Popped(RPop(d, key, now).1) ==> RPop(d, key, now).0 == d
    ensures !RPop(d, key, now).1.BulkArray?
  {
    GetLasting(d, key, now);
    GetLasting(r, key, now2);
    var left := TakeBack(Lookup(d.cache, key)).1;
    if left.Some? { SetValueSame(d, r, key, List(left.value)); }
  }

  lemma LPOPLogged(d: State, r: State, arr: Command, env: Env, env2: Env)
    requires SameData(d, r) && Arg(arr, 1) !in d.expiry
    ensures Logged(ExecLPOP(d, arr, env), d, ExecLPOP(r, arr, env2).d, arr)
  {
    if |arr| >= 2 {
      LPopSame(d, r, Arg(arr, 1), if |arr| == 3 then Atoi(Arg(arr, 2)).ValueIgnoringError() else 1, env.now, env2.now);
    }
  }

  lemma RPOPLogged(d: State, r: State, arr: Command, env: Env, env2: Env)
    requires SameData(d, r) && Arg(arr, 1) !in d.expiry
    ensures Logged(ExecRPOP(d, arr, env), d, ExecRPOP(r, arr, env2).d, arr)
  {
    RPopSame(d, r, Arg(arr, 1), env.now, env2.now);
  }

  lemma ZAddOneSame(d: State, r: State, key: string, score: Score, member: string)
    requires SameData(d, r)
    ensures ZAdd(r, key, score, member).1 == ZAdd(d, key, score, member).1
    ensures SameData(ZAdd(d, key, score, member).0, ZAdd(r, key, score, member).0)
  {
  }

  lemma {:induction false} ZAddSame(d: State, r: State, key: string, arr: Command, i: nat, env: Env, env2: Env, n: int)
    requires SameData(d, r) && env.parseFloat == env2.parseFloat
    requires i <= |arr| && (|arr| - i) % 2 == 0
    ensures ZAddFrom(r, key, arr, i, env2, n).1 == ZAddFrom(d, key, arr, i, env, n).1
    ensures SameData(ZAddFrom(d, key, arr, i, env, n).0, ZAddFrom(r, key, arr, i, env2, n).0)
    decreases |arr| - i
  {
    if i < |arr| && env.parseFloat(Arg(arr, i)).Some? {
      var score, member := env.parseFloat(Arg(arr, i)).value, Arg(arr, i + 1);
      var (d1, added) := ZAdd(d, key, score, member);
      var (r1, _) := ZAdd(r, key, score, member);
      ZAddOneSame(d, r, key, score, member);
      ZAddSame(d1, r1, key, arr, i + 2, env, env2, n + added);
    }
  }

  /** The loop runs to its end exactly when every score from index i on parses. */
  lemma {:induction false} ScoresAdd(d: State, key: string, arr: Command, i: nat, env: Env, n: int)
    requires 2 <= i <= |arr| && i % 2 == 0 && |arr| % 2 == 0
    ensures ZAddFrom(d, key, arr, i, env, n).1.Some?
       <==> forall j :: i <= j < |arr| && j % 2 == 0 ==> env.parseFloat(Arg(arr, j)).Some?
    decreases |arr| - i
  {
    if i < |arr| && env.parseFloat(Arg(arr, i)).Some? {
      var (d1, added) := ZAdd(d, key, env.parseFloat(Arg(arr, i)).value, Arg(arr, i + 1));
      ScoresAdd(d1, key, arr, i + 2, env, n + added);
    }
  }

  lemma ZADDLogged(d: State, r: State, arr: Command, env: Env, env2: Env)
    requires SameData(d, r) && ScoresParse(arr, env) && env.parseFloat == env2.parseFloat
    ensures Logged(ExecZADD(d, arr, env), d, ExecZADD(r, arr, env2).d, arr)
  {
    if |arr| >= 4 && |arr| % 2 == 0 {
      ZAddSame(d, r, Arg(arr, 1), arr, 2, env, env2, 0);
      ScoresAdd(d, Arg(arr, 1), arr, 2, env, 0);
    }
  }

  lemma DataLogged(d: State, r: State, conn: Option<Conn>, arr: Command, env: Env, env2: Env)
    requires SameData(d, r) && Durable(arr, env) && env.parseFloat == env2.parseFloat
    requires Pops(arr) ==> Arg(arr, 1) !in d.expiry
    ensures Logged(Data(d, conn, arr, env), d, Data(r, None, arr, env2).d, arr)
  {
    match KindOf(arr)
    case SET => SETLogged(d, r, arr, env, env2);
    case INCR => INCRLogged(d, r, arr);
    case ZADD => ZADDLogged(d, r, arr, env, env2);
    case LPOP => LPOPLogged(d, r, arr, env, env2);
    case RPOP => RPOPLogged(d, r, arr, env, env2);
  }

  // ---- Whole runs -------------------------------------------------------------------------------

  lemma ReplayFirst(r: State, cmds: seq<Command>, envs: seq<Env>)
    requires cmds != [] && |envs| == |cmds|
    ensures ReplayValues(r, Read(cmds), envs)
         == ReplayValues(ReplayOne(r, Arr(NormalizeAll(cmds[0])), envs[0]), Read(cmds[1..]), envs[1..])
  {
    assert Read(cmds)[0] == Arr(NormalizeAll(cmds[0])) && Read(cmds)[1..] == Read(cmds[1..]);
  }

  lemma {:induction false} ReplayAppend(r: State, a: seq<Command>, b: seq<Command>, envs: seq<Env>)
    requires |envs| == |a| + |b|
    ensures ReplayValues(r, Read(a + b), envs)
         == ReplayValues(ReplayValues(r, Read(a), envs[..|a|]), Read(b), envs[|a|..])
    decreases |a|
  {
    if a == [] {
      assert a + b == b && envs[0..] == envs;
    } else {
      var r1 := ReplayOne(r, Arr(NormalizeAll(a[0])), envs[0]);
      assert (a + b)[1..] == a[1..] + b;
      assert envs[1..][..|a| - 1] == envs[..|a|][1..] && envs[1..][|a| - 1..] == envs[|a|..];
      ReplayFirst(r, a + b, envs);
      ReplayFirst(r, a, envs[..|a|]);
      ReplayAppend(r1, a[1..], b, envs[1..]);
    }
  }

  /** Replay parses scores as the server did, at any times of its own. */
  ghost predicate SameParser(envs: seq<Env>, env: Env) {
    forall i :: 0 <= i < |envs| ==> envs[i].parseFloat == env.parseFloat
  }

  /** Replaying what a step has logged gives the data it gave. */
  ghost predicate Matches(e: Effect, r: State, envs: seq<Env>)
    requires |envs| == |e.persisted|
  {
    SameData(e.d, ReplayValues(r, Read(e.persisted), envs))
  }

  lemma OneMatches(d: State, e: Effect, r: State, arr: Command, env: Env, envs: seq<Env>)
    requires SameData(d, r) && Textual(Arr(arr)) && Fits(Arr(arr)) && arr != [] && |envs| == |e.persisted|
    requires Logged(e, d, Handle(r, None, arr, if envs == [] then env else envs[0]).d, arr)
    ensures Matches(e, r, envs) && FitsAll(e.persisted) && |e.persisted| <= 1
  {
    if e.persisted != [] {
      NormalizeAllTextual(arr);
      ReadSingle(arr);
      assert envs == [envs[0]];
      ReplaySingle(r, Arr(arr), envs[0]);
    }
  }

  lemma StepMatches(d: State, r: State, c: Conn, arr: Command, env: Env, base: Env, envs: seq<Env>)
    requires SameData(d, r) && DurableStep(d, c, arr, env) && env.parseFloat == base.parseFloat
    requires |envs| == |Data(d, Some(c), arr, env).persisted| && SameParser(envs, base)
    ensures var e := Data(d, Some(c), arr, env); Matches(e, r, envs) && FitsAll(e.persisted) && |e.persisted| <= 1
  {
    if Durable(arr, env) && Lasting(d, arr) {
      var env2 := if envs == [] then env else envs[0];
      DataLogged(d, r, Some(c), arr, env, env2);
      PlainReplay(r, arr, env, env2);
      OneMatches(d, Data(d, Some(c), arr, env), r, arr, env, envs);
    }
  }

  lemma StepShort(d: State, c: Conn, arr: Command, env: Env)
    requires DurableStep(d, c, arr, env)
    ensures |Data(d, Some(c), arr, env).persisted| <= 1
  {
    StepMatches(d, d, c, arr, env, env, seq(|Data(d, Some(c), arr, env).persisted|, _ => env));
  }

  lemma PlainReplay(r: State, arr: Command, env: Env, env2: Env)
    requires Durable(arr, env)
    ensures arr != [] && Handle(r, None, arr, env2) == Data(r, None, arr, env2)
  {
  }

  lemma {:induction false} QueueMatches(d: State, r: State, c: Conn, queue: seq<Command>, env: Env, base: Env,
                                        envs: seq<Env>)
    requires SameData(d, r) && DurableQueue(d, c, queue, env) && env.parseFloat == base.parseFloat
    requires |envs| == |ExecQueue(d, c, queue, env).persisted| && SameParser(envs, base)
    ensures var e := ExecQueue(d, c, queue, env); Matches(e, r, envs) && FitsAll(e.persisted)
    decreases |queue|
  {
    if queue != [] {
      var e := Data(d, Some(c), queue[0], env);
      var n, rest := |e.persisted|, ExecQueue(e.d, c, queue[1..], Next(env));
      StepMatches(d, r, c, queue[0], env, base, envs[..n]);
      ReplayAppend(r, e.persisted, rest.persisted, envs);
      QueueMatches(e.d, ReplayValues(r, Read(e.persisted), envs[..n]), c, queue[1..], Next(env), base, envs[n..]);
    }
  }

  lemma CommitIs(d: State, call: Call)
    requires Commits(d, call)
    ensures var e := ExecQueue(Started(d, call.conn.value), call.conn.value, d.transactions[call.conn.value], call.env);
            Serve(d, call) == e.(replies := Serve(d, call).replies)
  {
  }

  lemma CallMatches(d: State, r: State, call: Call, base: Env, envs: seq<Env>)
    requires SameData(d, r) && DurableCall(d, call, base)
    requires |envs| == |Serve(d, call).persisted| && SameParser(envs, base)
    ensures Matches(Serve(d, call), r, envs) && FitsAll(Serve(d, call).persisted)
    ensures |Serve(d, call).persisted| > 1 ==> Commits(d, call) && DurableCommit(d, call)
  {
    if Quiet(d, Serve(d, call)) {
    } else if Commits(d, call) {
      CommitIs(d, call);
      var c := call.conn.value;
      QueueMatches(Started(d, c), r, c, d.transactions[c], call.env, base, envs);
    } else {
      PlainCall(d, call);
      StepMatches(d, r, call.conn.value, call.arr, call.env, base, envs);
    }
  }

  ghost predicate DurableCommit(d: State, call: Call)
    requires Commits(d, call)
  {
    DurableQueue(Started(d, call.conn.value), call.conn.value, d.transactions[call.conn.value], call.env)
  }

  lemma PlainCall(d: State, call: Call)
    requires call.conn.Some? && call.conn.value !in d.transactions && Durable(call.arr, call.env)
    ensures Serve(d, call) == Data(d, call.conn, call.arr, call.env)
  {
  }

  lemma RunFirst(d: State, calls: seq<Call>, first: Effect)
    requires calls != [] && Serve(d, calls[0]) == first
    ensures ServeAll(d, calls) == ServeAll(first.d, calls[1..])
    ensures Persisted(d, calls) == first.persisted + Persisted(first.d, calls[1..])
  {
  }

  /** Replaying the log of a run on a store with the same data gives the same data. */
  lemma {:induction false} ReplayMatches(d: State, r: State, calls: seq<Call>, env: Env, envs: seq<Env>)
    requires SameData(d, r) && DurableRun(d, calls, env)
    requires |envs| == |Persisted(d, calls)| && SameParser(envs, env)
    ensures SameData(ServeAll(d, calls), ReplayValues(r, Read(Persisted(d, calls)), envs))
    decreases |calls|
  {
    if calls != [] {
      var e := Serve(d, calls[0]);
      var n := |e.persisted|;
      RunFirst(d, calls, e);
      CallMatches(d, r, calls[0], env, envs[..n]);
      ReplayAppend(r, e.persisted, Persisted(e.d, calls[1..]), envs);
      ReplayMatches(e.d, ReplayValues(r, Read(e.persisted), envs[..n]), calls[1..], env, envs[n..]);
    }
  }

  lemma {:induction false} PersistedFits(d: State, calls: seq<Call>, env: Env)
    requires DurableRun(d, calls, env)
    ensures FitsAll(Persisted(d, calls))
    decreases |calls|
  {
    if calls != [] {
      var e := Serve(d, calls[0]);
      CallMatches(d, d, calls[0], env, seq(|e.persisted|, _ => env));
      RunFirst(d, calls, e);
      PersistedFits(e.d, calls[1..], env);
    }
  }

  /** Durable replay: parsing and replaying the bytes of the log from the initial data yields
      the data at the end of the run, and no error. */
  lemma DurableReplay(d: State, r: State, calls: seq<Call>, env: Env, envs: seq<Env>)
    requires SameData(d, r) && DurableRun(d, calls, env)
    requires |envs| == |Persisted(d, calls)| && SameParser(envs, env)
    ensures var bytes := EncodeAll(Persisted(d, calls));
            && |Decode(bytes).0| == |envs|
            && SameData(ServeAll(d, calls), Replay(r, bytes, envs).0) && Replay(r, bytes, envs).1
  {
    ReplayMatches(d, r, calls, env, envs);
    PersistedFits(d, calls, env);
    DecodeAll(Persisted(d, calls));
  }

  // ---- Crashes ----------------------------------------------------------------------------------

  /** A crash cuts the log at any byte. Replay executes exactly the commands whose encoding is
      complete, each as it was logged, and then stops, with or without an error. */
  lemma CrashRecovery(r: State, cmds: seq<Command>, cut: nat, envs: seq<Env>)
    requires FitsAll(cmds) && cut <= |EncodeAll(cmds)| && |envs| == Complete(cmds, cut)
    ensures var bytes := EncodeAll(cmds)[..cut];
            && |Decode(bytes).0| == |envs|
            && Replay(r, bytes, envs).0 == ReplayValues(r, Read(cmds[..Complete(cmds, cut)]), envs)
            && (cut == |EncodeAll(cmds)| ==> Replay(r, bytes, envs).1)
  {
    DecodePrefix(cmds, cut);
    if cut == |EncodeAll(cmds)| {
      assert EncodeAll(cmds)[..cut] == EncodeAll(cmds);
      DecodeAll(cmds);
    }
  }

  /** The state after j of the commands that an EXEC runs. */
  function Inside(d: State, call: Call, j: nat): State {
    if !Commits(d, call) then d
    else
      var c, queue := call.conn.value, d.transactions[call.conn.value];
      if j > |queue| then d else ExecQueue(Started(d, c), c, queue[..j], call.env).d
  }

  /** The state of the server during a run: after m calls and, if the next is an EXEC that runs its
      queue, j commands of that. */
  function During(d: State, calls: seq<Call>, m: nat, j: nat): State
    requires m <= |calls|
  {
    var before := ServeAll(d, calls[..m]);
    if j == 0 || m == |calls| then before else Inside(before, calls[m], j)
  }

  lemma CutAppend<T>(a: seq<T>, b: seq<T>, k: nat)
    requires |a| <= k <= |a| + |b|
    ensures (a + b)[..k] == a + b[..k - |a|]
  {
  }

  lemma ReplayCut(r: State, a: seq<Command>, b: seq<Command>, k: nat, envs: seq<Env>)
    requires |a| <= k <= |a| + |b| && |envs| == k
    ensures ReplayValues(r, Read((a + b)[..k]), envs)
         == ReplayValues(ReplayValues(r, Read(a), envs[..|a|]), Read(b[..k - |a|]), envs[|a|..])
  {
    CutAppend(a, b, k);
    ReplayAppend(r, a, b[..k - |a|], envs);
  }

  lemma LongerQueue(d: State, c: Conn, queue: seq<Command>, env: Env, i: nat)
    requires i < |queue|
    ensures ExecQueue(d, c, queue[..i + 1], env).d
         == ExecQueue(Data(d, Some(c), queue[0], env).d, c, queue[1..][..i], Next(env)).d
  {
    assert queue[..i + 1][1..] == queue[1..][..i] && queue[..i + 1][0] == queue[0];
  }

  /** Replaying the first k logged commands of a queue gives the data after some prefix of it. */
  lemma {:induction false} QueuePrefix(d: State, r: State, c: Conn, queue: seq<Command>, env: Env, base: Env, k: nat,
                                       envs: seq<Env>) returns (j: nat)
    requires SameData(d, r) && DurableQueue(d, c, queue, env) && env.parseFloat == base.parseFloat
    requires k <= |ExecQueue(d, c, queue, env).persisted| && |envs| == k && SameParser(envs, base)
    ensures j <= |queue|
    ensures SameData(ExecQueue(d, c, queue[..j], env).d,
                     ReplayValues(r, Read(ExecQueue(d, c, queue, env).persisted[..k]), envs))
    decreases |queue|
  {
    j := 0;
    if k > 0 {
      var e := Data(d, Some(c), queue[0], env);
      var n, rest := |e.persisted|, ExecQueue(e.d, c, queue[1..], Next(env)).persisted;
      var r1 := AfterStep(d, r, c, queue[0], env, base, rest, k, envs);
      var i := QueuePrefix(e.d, r1, c, queue[1..], Next(env), base, k - n, envs[n..]);
      j := i + 1;
      LongerQueue(d, c, queue, env, i);
    }
  }

  lemma AfterStep(d: State, r: State, c: Conn, arr: Command, env: Env, base: Env, rest: seq<Command>, k: nat,
                  envs: seq<Env>) returns (r1: State)
    requires SameData(d, r) && DurableStep(d, c, arr, env) && env.parseFloat == base.parseFloat
    requires 0 < k <= |Data(d, Some(c), arr, env).persisted| + |rest| && |envs| == k && SameParser(envs, base)
    ensures var e := Data(d, Some(c), arr, env);
            && |e.persisted| <= k && SameData(e.d, r1)
            && ReplayValues(r, Read((e.persisted + rest)[..k]), envs)
               == ReplayValues(r1, Read(rest[..k - |e.persisted|]), envs[|e.persisted|..])
  {
    var e := Data(d, Some(c), arr, env);
    StepShort(d, c, arr, env);
    StepMatches(d, r, c, arr, env, base, envs[..|e.persisted|]);
    ReplayCut(r, e.persisted, rest, k, envs);
    r1 := ReplayValues(r, Read(e.persisted), envs[..|e.persisted|]);
  }

  /** The first call is an EXEC, and the first k logged commands are some of its own. */
  lemma FirstPrefix(d: State, r: State, call: Call, env: Env, k: nat, envs: seq<Env>) returns (j: nat)
    requires SameData(d, r) && DurableCall(d, call, env) && 0 < k < |Serve(d, call).persisted|
    requires |envs| == k && SameParser(envs, env)
    ensures SameData(if j == 0 then d else Inside(d, call, j),
                     ReplayValues(r, Read(Serve(d, call).persisted[..k]), envs))
  {
    CallMatches(d, d, call, env, seq(|Serve(d, call).persisted|, _ => env));
    CommitIs(d, call);
    var c := call.conn.value;
    j := QueuePrefix(Started(d, c), r, c, d.transactions[c], call.env, env, k, envs);
  }

  lemma LaterDuring(d: State, calls: seq<Call>, m: nat, j: nat)
    requires calls != [] && m < |calls|
    ensures During(d, calls, m + 1, j) == During(Serve(d, calls[0]).d, calls[1..], m, j)
  {
    assert calls[..m + 1][1..] == calls[1..][..m] && calls[..m + 1][0] == calls[0];
    RunFirst(d, calls[..m + 1], Serve(d, calls[0]));
  }

  /** Replaying the first k logged commands gives the data at some moment of the run. */
  lemma {:induction false} PrefixMatches(d: State, r: State, calls: seq<Call>, env: Env, k: nat, envs: seq<Env>)
    returns (m: nat, j: nat)
    requires SameData(d, r) && DurableRun(d, calls, env) && k <= |Persisted(d, calls)|
    requires |envs| == k && SameParser(envs, env)
    ensures m <= |calls| && SameData(During(d, calls, m, j), ReplayValues(r, Read(Persisted(d, calls)[..k]), envs))
    decreases |calls|
  {
    m, j := 0, 0;
    assert calls[..0] == [];
    if k > 0 {
      var e := Serve(d, calls[0]);
      var n, rest := |e.persisted|, Persisted(e.d, calls[1..]);
      RunFirst(d, calls, e);
      if k < n {
        assert (e.persisted + rest)[..k] == e.persisted[..k];
        j := FirstPrefix(d, r, calls[0], env, k, envs);
      } else {
        var r1 := AfterFirst(d, r, calls[0], env, rest, k, envs);
        m, j := PrefixMatches(e.d, r1, calls[1..], env, k - n, envs[n..]);
        LaterDuring(d, calls, m, j);
        m := m + 1;
      }
    }
  }

  lemma AfterFirst(d: State, r: State, call: Call, env: Env, rest: seq<Command>, k: nat, envs: seq<Env>)
    returns (r1: State)
    requires SameData(d, r) && DurableCall(d, call, env) && |envs| == k && SameParser(envs, env)
    requires |Serve(d, call).persisted| <= k <= |Serve(d, call).persisted| + |rest|
    ensures SameData(Serve(d, call).d, r1)
    ensures var n := |Serve(d, call).persisted|;
            ReplayValues(r, Read((Serve(d, call).persisted + rest)[..k]), envs)
            == ReplayValues(r1, Read(rest[..k - n]), envs[n..])
  {
    var e := Serve(d, call);
    CallMatches(d, r, call, env, envs[..|e.persisted|]);
    ReplayCut(r, e.persisted, rest, k, envs);
    r1 := ReplayValues(r, Read(e.persisted), envs[..|e.persisted|]);
  }

  /** After a crash at any byte of the log, replay yields the data the server had at some moment of
      the run: no command is half applied, altered or skipped, but an EXEC may be. */
  lemma CrashGivesEarlierData(d: State, r: State, calls: seq<Call>, env: Env, cut: nat, envs: seq<Env>)
    returns (m: nat, j: nat)
    requires SameData(d, r) && DurableRun(d, calls, env) && cut <= |EncodeAll(Persisted(d, calls))|
    requires |envs| == Complete(Persisted(d, calls), cut) && SameParser(envs, env)
    ensures m <= |calls| && |Decode(EncodeAll(Persisted(d, calls))[..cut]).0| == |envs|
    ensures SameData(During(d, calls, m, j), Replay(r, EncodeAll(Persisted(d, calls))[..cut], envs).0)
  {
    var cmds := Persisted(d, calls);
    PersistedFits(d, calls, env);
    CrashRecovery(r, cmds, cut, envs);
    m, j := PrefixMatches(d, r, calls, env, Complete(cmds, cut), envs);
  }

  // ---- Quiet calls --------------------------------------------------------------------------------

  /** A command of a transaction that is only queued. */
  predicate IsQueued(d: State, call: Call) {
    && call.conn.Some? && call.conn.value in d.transactions
    && !KindOf(call.arr).Nameless? && !PassesGate(KindOf(call.arr))
  }

  /** The calls of a client that neither log nor change data, whatever the store. */
  predicate LooksOnly(d: State, call: Call) {
    || IsQueued(d, call)
    || (call.conn.Some? &&
        match KindOf(call.arr)
        case GET => |call.arr| >= 2 ==> !Expired(d, Arg(call.arr, 1), call.env.now)
        case EXEC => !Commits(d, call)
        case MULTI | DISCARD | WATCH | UNWATCH | QUIT | Nameless | Unknown => true
        case _ => false)
  }

  lemma LooksAreQuiet(d: State, call: Call)
    requires LooksOnly(d, call)
    ensures Quiet(d, Serve(d, call))
  {
    if !IsQueued(d, call) {
      if IsControl(KindOf(call.arr)) {
        ControlQuiet(d, call.conn.value, call.arr, call.env);
      } else if KindOf(call.arr).GET? {
        GETQuiet(d, call.arr, call.env);
      } else {
        assert Serve(d, call) == Data(d, call.conn, call.arr, call.env);
      }
    }
  }

  lemma GETQuiet(d: State, arr: Command, env: Env)
    requires |arr| >= 2 ==> !Expired(d, Arg(arr, 1), env.now)
    ensures Quiet(d, ExecGET(d, arr, env))
  {
  }

  lemma ControlQuiet(d: State, c: Conn, arr: Command, env: Env)
    requires IsControl(KindOf(arr)) && !Commits(d, Call(Some(c), arr, env))
    ensures Quiet(d, Control(d, c, arr, env))
  {
    match KindOf(arr)
    case EXEC => EXECQuiet(d, c, arr, env);
    case WATCH => WATCHQuiet(d, c, arr);
    case MULTI => MULTIQuiet(d, c, arr);
    case DISCARD => DISCARDQuiet(d, c, arr);
  }

  lemma EXECQuiet(d: State, c: Conn, arr: Command, env: Env)
    requires |arr| == 1 && c in d.transactions ==> c in d.dirtyClients
    ensures Quiet(d, ExecEXEC(d, c, arr, env))
  {
    StartQuiet(d, c);
    EXECRefused(d, c, arr, env);
  }

  lemma EXECRefused(d: State, c: Conn, arr: Command, env: Env)
    requires |arr| == 1 && c in d.transactions ==> c in d.dirtyClients
    ensures ExecEXEC(d, c, arr, env).persisted == []
    ensures ExecEXEC(d, c, arr, env).d in {d, ClearTx(d, c), Unwatch(ClearTx(d, c), c)}
  {
  }

  lemma StartQuiet(d: State, c: Conn)
    ensures SameData(d, ClearTx(d, c)) && SameData(d, Unwatch(ClearTx(d, c), c))
  {
  }

  lemma MULTIQuiet(d: State, c: Conn, arr: Command)
    ensures Quiet(d, ExecMULTI(d, c, arr))
  {
  }

  lemma DISCARDQuiet(d: State, c: Conn, arr: Command)
    ensures Quiet(d, ExecDISCARD(d, c, arr))
  {
  }

  lemma WATCHQuiet(d: State, c: Conn, arr: Command)
    ensures Quiet(d, ExecWATCH(d, c, arr))
  {
    if |arr| >= 2 { WatchQuiet(d, c, StringsFrom(arr, 1)); }
  }

  lemma {:induction false} WatchQuiet(d: State, c: Conn, keys: seq<string>)
    ensures SameData(d, Watch(d, c, keys))
    decreases |keys|
  {
    if keys != [] { WatchQuiet(d.(watchedKeys := d.watchedKeys[keys[0] := Watchers(d, keys[0]) + {c}]), c, keys[1..]); }
  }

  // ---- Where replay differs -----------------------------------------------------------------------

  function SetOf(key: string, value: string): Command { [Str("SET"), Str(key), Str(value)] }

  lemma SetOfIs(d: State, conn: Option<Conn>, key: string, value: string, env: Env)
    ensures KindOf(SetOf(key, value)) == SET && ParseTTL(SetOf(key, value)).None?
    ensures Data(d, conn, SetOf(key, value), env) == Effect(SetValue(d, key, Text(value)), [SetOf(key, value)], [OK])
  {
    assert ToUpper("SET") == "SET";
  }

  /** Storing a value again changes nothing exactly when it is there without a deadline. */
  lemma SetAgain(d: State, key: string, value: Datum)
    ensures SameData(d, SetValue(d, key, value)) <==> Lookup(d.cache, key) == Some(value) && key !in d.expiry
  {
    var d' := SetValue(d, key, value);
    assert d'.cache[key] == value && key !in d'.expiry;
    if Lookup(d.cache, key) == Some(value) && key !in d.expiry {
      assert d.cache[key := value] == d.cache && d.expiry - {key} == d.expiry;
    }
  }

  /** An EXEC is not atomic across a crash: cut after the first of its two SETs, the log gives
      neither the data before it nor the data after it, unless that SET, or the other, stores what
      is there. */
  lemma HalfTransaction(d: State, r: State, call: Call, k1: string, v1: string, k2: string, v2: string, env2: Env)
    requires SameData(d, r) && Commits(d, call) && k1 != k2
    requires d.transactions[call.conn.value] == [SetOf(k1, v1), SetOf(k2, v2)]
    ensures var e, replayed := Serve(d, call), ReplayValues(r, Read([SetOf(k1, v1)]), [env2]);
            && e.persisted == [SetOf(k1, v1), SetOf(k2, v2)]
            && (SameData(d, replayed) <==> Lookup(d.cache, k1) == Some(Text(v1)) && k1 !in d.expiry)
            && (SameData(e.d, replayed) <==> Lookup(d.cache, k2) == Some(Text(v2)) && k2 !in d.expiry)
  {
    TwoSets(d, call, k1, v1, k2, v2);
    ReplaySet(r, k1, v1, env2);
    SetAgain(d, k1, Text(v1));
    SetAgain(SetValue(d, k1, Text(v1)), k2, Text(v2));
    SetValueSame(d, r, k1, Text(v1));
  }

  lemma TwoSets(d: State, call: Call, k1: string, v1: string, k2: string, v2: string)
    requires Commits(d, call) && d.transactions[call.conn.value] == [SetOf(k1, v1), SetOf(k2, v2)]
    ensures Serve(d, call).persisted == [SetOf(k1, v1), SetOf(k2, v2)]
    ensures SameData(Serve(d, call).d, SetValue(SetValue(d, k1, Text(v1)), k2, Text(v2)))
  {
    var c, env := call.conn.value, call.env;
    CommitIs(d, call);
    SetThenSet(Started(d, c), c, k1, v1, k2, v2, env);
    SetValueSame(Started(d, c), d, k1, Text(v1));
    SetValueSame(SetValue(Started(d, c), k1, Text(v1)), SetValue(d, k1, Text(v1)), k2, Text(v2));
  }

  lemma SetThenSet(d: State, c: Conn, k1: string, v1: string, k2: string, v2: string, env: Env)
    ensures var e := ExecQueue(d, c, [SetOf(k1, v1), SetOf(k2, v2)], env);
            e.persisted == [SetOf(k1, v1), SetOf(k2, v2)] && e.d == SetValue(SetValue(d, k1, Text(v1)), k2, Text(v2))
  {
    var queue, d1 := [SetOf(k1, v1), SetOf(k2, v2)], SetValue(d, k1, Text(v1));
    SetOfIs(d, Some(c), k1, v1, env);
    assert queue[1..] == [SetOf(k2, v2)];
    OneQueued(d1, c, k2, v2, Next(env));
  }

  lemma OneQueued(d: State, c: Conn, key: string, value: string, env: Env)
    ensures ExecQueue(d, c, [SetOf(key, value)], env)
         == Effect(SetValue(d, key, Text(value)), [SetOf(key, value)], [OK])
  {
    SetOfIs(d, Some(c), key, value, env);
    assert [SetOf(key, value)][1..] == [];
  }

  lemma ReplaySet(r: State, key: string, value: string, env: Env)
    ensures ReplayValues(r, Read([SetOf(key, value)]), [env]) == SetValue(r, key, Text(value))
  {
    var arr := SetOf(key, value);
    assert Textual(Arr(arr));
    NormalizeAllTextual(arr);
    ReadSingle(arr);
    ReplaySingle(r, Arr(arr), env);
    SetOfIs(r, None, key, value, env);
  }

  predicate WellFormedZADD(arr: Command) { |arr| >= 4 && |arr| % 2 == 0 }

  /** The scores of a set after the pairs from index i on, up to the first bad score. */
  function AddedScores(scores: map<string, Score>, arr: Command, i: nat, env: Env): map<string, Score>
    requires i <= |arr| && (|arr| - i) % 2 == 0
    decreases |arr| - i
  {
    if i == |arr| || env.parseFloat(Arg(arr, i)).None? then scores
    else AddedScores(scores[Arg(arr, i + 1) := env.parseFloat(Arg(arr, i)).value], arr, i + 2, env)
  }

  lemma {:induction false} AddsScores(d: State, key: string, arr: Command, i: nat, env: Env, n: int)
    requires i <= |arr| && (|arr| - i) % 2 == 0
    requires key in d.cache && d.cache[key].ZSet?
    ensures ZAddFrom(d, key, arr, i, env, n).0.cache
         == d.cache[key := ZSet(AddedScores(d.cache[key].scores, arr, i, env))]
    decreases |arr| - i
  {
    if i < |arr| && env.parseFloat(Arg(arr, i)).Some? {
      var (d1, added) := ZAdd(d, key, env.parseFloat(Arg(arr, i)).value, Arg(arr, i + 1));
      AddsScores(d1, key, arr, i + 2, env, n + added);
    } else {
      assert d.cache[key := d.cache[key]] == d.cache;
    }
  }

  lemma {:induction false} WrongTypeKept(d: State, key: string, arr: Command, i: nat, env: Env, n: int)
    requires i <= |arr| && (|arr| - i) % 2 == 0
    requires key in d.cache && !d.cache[key].ZSet?
    ensures ZAddFrom(d, key, arr, i, env, n).0 == d
    decreases |arr| - i
  {
    if i < |arr| && env.parseFloat(Arg(arr, i)).Some? { WrongTypeKept(d, key, arr, i + 2, env, n); }
  }

  /** A well-formed ZADD is logged if and only if all its scores parse. */
  lemma ZADDLoggedExactly(d: State, arr: Command, env: Env)
    requires WellFormedZADD(arr)
    ensures ExecZADD(d, arr, env).persisted == (if ScoresParse(arr, env) then [arr] else [])
  {
    ScoresAdd(d, Arg(arr, 1), arr, 2, env, 0);
  }

  /** An unlogged one changes the data if and only if its first score parses and either its key is
      absent, or holds a sorted set that the pairs before the first bad score change. */
  lemma UnloggedZADDChanges(d: State, key: string, arr: Command, env: Env)
    requires WellFormedZADD(arr) && key == Arg(arr, 1) && !ScoresParse(arr, env)
    ensures ExecZADD(d, arr, env).persisted == []
    ensures ExecZADD(d, arr, env).d.cache != d.cache
       <==> (env.parseFloat(Arg(arr, 2)).Some?
             && (key !in d.cache
                 || (d.cache[key].ZSet? && AddedScores(d.cache[key].scores, arr, 2, env) != d.cache[key].scores)))
  {
    ZADDLoggedExactly(d, arr, env);
    if key in d.cache {
      if d.cache[key].ZSet? { AddsScores(d, key, arr, 2, env, 0); } else { WrongTypeKept(d, key, arr, 2, env, 0); }
    } else if env.parseFloat(Arg(arr, 2)).Some? {
      var (d1, added) := ZAdd(d, key, env.parseFloat(Arg(arr, 2)).value, Arg(arr, 3));
      AddsScores(d1, key, arr, 4, env, added);
      assert key in ExecZADD(d, arr, env).d.cache;
    }
  }

  lemma {:induction false} NormalizedAt(items: seq<Value>, i: nat)
    requires i < |items|
    ensures NormalizeAll(items)[i] == Normalize(items[i])
  {
    if i > 0 { NormalizedAt(items[1..], i - 1); }
  }

  /** Every argument is replayed as it was executed if and only if none is an integer. */
  lemma ArgumentsSurvive(arr: Command)
    ensures (forall i: nat :: Arg(NormalizeAll(arr), i) == Arg(arr, i))
       <==> forall i :: 0 <= i < |arr| ==> !arr[i].Int?
  {
    forall i: nat ensures i < |arr| ==> (Arg(NormalizeAll(arr), i) == Arg(arr, i) <==> !arr[i].Int?) {
      if i < |arr| {
        NormalizedAt(arr, i);
        if arr[i].Int? { assert |FormatInt(arr[i].n)| > 0; }
      }
    }
  }

  /** An integer argument is stored as the empty string but logged, and replayed, as its
      digits. */
  lemma IntegerArgument(d: State, c: Conn, arr: Command, n: int, env: Env)
    requires c !in d.transactions && KindOf(arr) == SET && |arr| == 3 && arr[1].Str? && arr[2] == Int(n)
    ensures var e := Serve(d, Call(Some(c), arr, env));
            && Lookup(e.d.cache, arr[1].s) == Some(Text("")) && e.persisted == [arr]
            && Lookup(ReplayValues(d, Read([arr]), [env]).cache, arr[1].s) == Some(Text(FormatInt(n)))
  {
    SetStores(d, Some(c), arr, env);
    ReplayedAsDigits(d, arr, n, env);
  }

  lemma ReplayedAsDigits(d: State, arr: Command, n: int, env: Env)
    requires KindOf(arr) == SET && |arr| == 3 && arr[1].Str? && arr[2] == Int(n)
    ensures Lookup(ReplayValues(d, Read([arr]), [env]).cache, arr[1].s) == Some(Text(FormatInt(n)))
  {
    var read := [arr[0], arr[1], Str(FormatInt(n))];
    NormalizeThree(arr, n);
    ReadSingle(arr);
    ReplaySingle(d, Arr(read), env);
    SetStores(d, None, read, env);
  }

  lemma ReadSingle(arr: Command)
    ensures Read([arr]) == [Arr(NormalizeAll(arr))]
  {
    assert [arr][1..] == [];
  }

  lemma ReplaySingle(d: State, v: Value, env: Env)
    ensures ReplayValues(d, [v], [env]) == ReplayOne(d, v, env)
  {
    assert [v][1..] == [] && [env][1..] == [];
  }

  lemma SetStores(d: State, conn: Option<Conn>, arr: Command, env: Env)
    requires (conn.Some? ==> conn.value !in d.transactions) && KindOf(arr) == SET && |arr| == 3
    ensures Lookup(Handle(d, conn, arr, env).d.cache, Arg(arr, 1)) == Some(Text(Arg(arr, 2)))
    ensures Handle(d, conn, arr, env).persisted == [arr]
  {
    assert Handle(d, conn, arr, env) == ExecSET(d, arr, env);
  }

  lemma NormalizeThree(arr: Command, n: int)
    requires |arr| == 3 && arr[0].Str? && arr[1].Str? && arr[2] == Int(n)
    ensures NormalizeAll(arr) == [arr[0], arr[1], Str(FormatInt(n))]
  {
    assert NormalizeAll(arr) == [arr[0]] + NormalizeAll(arr[1..]);
    assert NormalizeAll(arr[1..]) == [arr[1]] + NormalizeAll(arr[2..]);
    assert NormalizeAll(arr[2..]) == [Str(FormatInt(n))] + NormalizeAll(arr[3..]);
  }
}
