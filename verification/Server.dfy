/** The command handlers of app/commands.go and the replay loop of app/aof.go on the store, the
    replication manager and the append-only file, each proved to do what module Commands says. */
module ServerClass {
  import opened Strconv
  import opened Resp
  import opened RespStream
  import opened RespReader
  import opened StreamIds
  import opened StoreModel
  import opened Sections
  import opened StoreClass
  import opened Expiry
  import opened Commands
  import opened Aof
  import opened Replication
  import opened Manager

  class Server {
    const store: Store
    const repl: ReplicationManager
    const appendonly: bool
    var aof: string   // the bytes of the append-only file

    constructor (store: Store, repl: ReplicationManager, appendonly: bool)
      ensures this.store == store && this.repl == repl && this.appendonly == appendonly && aof == ""
    {
      this.store, this.repl, this.appendonly, aof := store, repl, appendonly, "";
    }

    /** What a step appends to the file. */
    function Appended(conn: Option<Conn>, persisted: seq<Command>): string {
      if conn.Some? && appendonly then EncodeAll(persisted) else ""
    }

    /** The server is where e leads, with what e persists sent and appended to what was there. */
    ghost predicate Did(r: Repl, file: string, conn: Option<Conn>, e: Effect)
      reads this, store, repl
    {
      && store.Model() == e.d
      && repl.Model() == PropagateAll(r, e.persisted)
      && aof == file + Appended(conn, e.persisted)
    }

    method PersistWriteCommand(conn: Option<Conn>, arr: Command)
      modifies this, repl
      ensures repl.Model() == PropagateAll(old(repl.Model()), [arr])
      ensures aof == old(aof) + Appended(conn, [arr])
    {
      PropagateOne(repl.Model(), arr);
      EncodeAllOne(arr);
      repl.Propagate(arr);
      if conn.Some? && appendonly {
        var payload := EncodeRESPArray(arr);
        aof := aof + payload;
      }
    }

    // ---- Strings, numbers and sorted sets ------------------------------------------------

    method HandleSET(conn: Option<Conn>, arr: Command, env: Env) returns (replies: seq<Reply>)
      modifies this, store, repl
      ensures var e := ExecSET(old(store.Model()), arr, env);
              Did(old(repl.Model()), old(aof), conn, e) && replies == e.replies
    {
      if |arr| < 3 { return [Error("wrong number of arguments for 'SET' command")]; }
      var key, value := Arg(arr, 1), Arg(arr, 2);
      var ttl := ParseTTL(arr);
      if ttl.Some? {
        store.SetWithTTL(key, Text(value), Deadline(env.now, ttl.value));
      } else {
        store.Set(key, Text(value));
      }
      PersistWriteCommand(conn, arr);
      replies := [OK];
    }

    method HandleGET(conn: Option<Conn>, arr: Command, env: Env) returns (replies: seq<Reply>)
      modifies store
      ensures var e := ExecGET(old(store.Model()), arr, env);
              Did(old(repl.Model()), old(aof), conn, e) && replies == e.replies
    {
      if |arr| < 2 { return [Error("wrong number of arguments for 'GET' command")]; }
      var v := store.Get(Arg(arr, 1), env.now);
      if v.None? { return [NullBulk]; }
      replies := [if v.value.Text? then Bulk(v.value.text) else Crash];
    }

    method HandleINCR(conn: Option<Conn>, arr: Command) returns (replies: seq<Reply>)
      modifies this, store, repl
      ensures var e := ExecINCR(old(store.Model()), arr);
              Did(old(repl.Model()), old(aof), conn, e) && replies == e.replies
    {
      if |arr| < 2 { return [Error("wrong number of arguments for 'INCR' command")]; }
      var val := store.Incr(Arg(arr, 1));
      if val.None? { return [Error("value is not an integer or out of range")]; }
      PersistWriteCommand(conn, arr);
      replies := [Integer(val.value)];
    }

    /** The loop of handleZADD. */
    method AddMembers(key: string, arr: Command, env: Env) returns (added: Option<int>)
      requires |arr| >= 4 && |arr| % 2 == 0
      modifies store
      ensures (store.Model(), added) == ZAddFrom(old(store.Model()), key, arr, 2, env, 0)
    {
      ghost var all := ZAddFrom(store.Model(), key, arr, 2, env, 0);
      var addedCount := 0;
      var i := 2;
      while i < |arr|
        invariant 2 <= i <= |arr| && (|arr| - i) % 2 == 0
        invariant all == ZAddFrom(store.Model(), key, arr, i, env, addedCount)
      {
        var score := env.parseFloat(Arg(arr, i));
        if score.None? { return None; }
        var n := store.ZAdd(key, score.value, Arg(arr, i + 1));
        addedCount := addedCount + n;
        i := i + 2;
      }
      added := Some(addedCount);
    }

    method HandleZADD(conn: Option<Conn>, arr: Command, env: Env) returns (replies: seq<Reply>)
      modifies this, store, repl
      ensures var e := ExecZADD(old(store.Model()), arr, env);
              Did(old(repl.Model()), old(aof), conn, e) && replies == e.replies
    {
      if |arr| < 4 || |arr| % 2 != 0 { return [Error("wrong number of arguments for 'ZADD' command")]; }
      var added := AddMembers(Arg(arr, 1), arr, env);
      if added.None? { return [Error("ERR value is not a valid float")]; }
      PersistWriteCommand(conn, arr);
      replies := [Integer(added.value)];
    }

    method HandleZREM(conn: Option<Conn>, arr: Command) returns (replies: seq<Reply>)
      modifies store
      ensures var e := ExecZREM(old(store.Model()), arr);
              Did(old(repl.Model()), old(aof), conn, e) && replies == e.replies
    {
      if |arr| < 3 { return [Error("wrong number of arguments for 'ZREM' command")]; }
      var members := CollectStrings(arr, 2);
      var removedCount := store.ZRem(Arg(arr, 1), members);
      replies := [Integer(removedCount)];
    }

    // ---- Lists and streams -----------------------------------------------------------------

    /** The data part of handleLPUSH and handleRPUSH. */
    method PushValues(left: bool, key: string, values: seq<string>, now: int) returns (expectedLen: int)
      modifies store
      ensures (store.Model(), expectedLen) == PushTo(old(store.Model()), left, key, values, now)
    {
      var v := store.Get(key, now);
      var initialLen := if v.Some? && v.value.List? then |v.value.items| else 0;
      expectedLen := initialLen + |values|;
      var remaining := store.HandOff(key, values);
      if |remaining| > 0 {
        if left { var _ := store.LPush(key, remaining); } else { var _ := store.RPush(key, remaining); }
      }
    }

    /** handleLPUSH (left) and handleRPUSH. */
    method HandlePush(conn: Option<Conn>, left: bool, arr: Command, env: Env) returns (replies: seq<Reply>)
      modifies this, store, repl
      ensures var e := ExecPush(old(store.Model()), conn.Some?, left, arr, env);
              Did(old(repl.Model()), old(aof), conn, e) && replies == e.replies
    {
      var name := if left then "LPUSH" else "RPUSH";
      if |arr| < 3 { return [Error("wrong number of arguments for '" + name + "' command")]; }
      var values := CollectOnlyStrings(arr, 2);
      if values.None? { return [Error(name + " values must be strings")]; }
      var expectedLen := PushValues(left, Arg(arr, 1), values.value, env.now);
      PersistWriteCommand(conn, arr);
      replies := [if conn.Some? then Integer(expectedLen) else Crash];
    }

    /** The data part of handleLPOP. */
    method PopFront(key: string, cnt: int, now: int) returns (reply: Reply)
      modifies store
      ensures (store.Model(), reply) == LPop(old(store.Model()), key, cnt, now)
    {
      var v := store.Get(key, now);
      if v.None? { return NullBulk; }
      if !v.value.List? { return Error("LPOP key is not a list"); }
      var list := v.value.items;
      if |list| == 0 { return NullBulk; }
      if cnt <= 0 { return Error("LPOP count must be a positive integer"); }
      var n := if cnt > |list| then |list| else cnt;
      store.Set(key, List(list[n..]));
      reply := if n == 1 then Bulk(list[0]) else BulkArray(list[..n]);
    }

    method HandleLPOP(conn: Option<Conn>, arr: Command, env: Env) returns (replies: seq<Reply>)
      modifies this, store, repl
      ensures var e := ExecLPOP(old(store.Model()), arr, env);
              Did(old(repl.Model()), old(aof), conn, e) && replies == e.replies
    {
      if |arr| < 2 { return [Error("wrong number of arguments for 'LPOP' command")]; }
      var cnt := 1;
      if |arr| == 3 {
        if !arr[2].Str? { return [Crash]; }
        cnt := Atoi(arr[2].s).ValueIgnoringError();
      }
      var reply := PopFront(Arg(arr, 1), cnt, env.now);
      if reply.Bulk? || reply.BulkArray? { PersistWriteCommand(conn, arr); }
      replies := [reply];
    }

    /** The data part of handleRPOP. */
    method PopBack(key: string, now: int) returns (reply: Reply)
      modifies store
      ensures (store.Model(), reply) == RPop(old(store.Model()), key, now)
    {
      var v := store.Get(key, now);
      if v.None? { return NullBulk; }
      if !v.value.List? { return Error("RPOP key is not a list"); }
      var list := v.value.items;
      if |list| == 0 { return NullBulk; }
      store.Set(key, List(list[..|list| - 1]));
      reply := Bulk(list[|list| - 1]);
    }

    method HandleRPOP(conn: Option<Conn>, arr: Command, env: Env) returns (replies: seq<Reply>)
      modifies this, store, repl
      ensures var e := ExecRPOP(old(store.Model()), arr, env);
              Did(old(repl.Model()), old(aof), conn, e) && replies == e.replies
    {
      if |arr| < 2 { return [Error("wrong number of arguments for 'RPOP' command")]; }
      var reply := PopBack(Arg(arr, 1), env.now);
      if reply.Bulk? { PersistWriteCommand(conn, arr); }
      replies := [reply];
    }

    /** handleBLPOP up to its wait: None means that the client now waits on its channel. The
        section that pops also logs. */
    method BeginBLPOP(conn: Conn, arr: Command, env: Env, ch: Chan) returns (reply: Option<Reply>)
      modifies this, store, repl
      ensures var d := old(store.Model());
              if |arr| < 3 then
                reply == Some(Error("wrong number of arguments for 'BLPOP' command"))
                && Did(old(repl.Model()), old(aof), Some(conn), Effect(d, [], []))
              else if env.parseFloat(Arg(arr, |arr| - 1)).None? then
                reply == Some(Error("timeout is not a float or integer"))
                && Did(old(repl.Model()), old(aof), Some(conn), Effect(d, [], []))
              else
                var (d', value) := StoreModel.BLPop(d, Arg(arr, 1), ch);
                reply == (if value.Some? then Some(BulkArray([Arg(arr, 1), value.value])) else None)
                && Did(old(repl.Model()), old(aof), Some(conn), Effect(d', if value.Some? then [arr] else [], []))
      ensures aof == old(aof) + if appendonly && reply.Some? && reply.value.BulkArray? then EncodeArray(arr) else ""
    {
      if |arr| < 3 { return Some(Error("wrong number of arguments for 'BLPOP' command")); }
      var timeout := env.parseFloat(Arg(arr, |arr| - 1));
      if timeout.None? { return Some(Error("timeout is not a float or integer")); }
      var key := Arg(arr, 1);
      var val := store.BLPop(key, ch);
      if val.None? { return None; }
      EncodeAllOne(arr);
      PersistWriteCommand(Some(conn), arr);
      reply := Some(BulkArray([key, val.value]));
    }

    method HandleXADD(conn: Option<Conn>, arr: Command, env: Env) returns (replies: seq<Reply>)
      modifies store
      ensures var e := ExecXADD(old(store.Model()), arr, env);
              Did(old(repl.Model()), old(aof), conn, e) && replies == e.replies
    {
      if |arr| < 5 { return [Error("wrong number of arguments for 'XADD' command")]; }
      if (|arr| - 3) % 2 != 0 {
        return [Error("wrong number of arguments for 'XADD' command: fields must be key value pairs")];
      }
      var fields := CollectOnlyStrings(arr, 3);
      if fields.None? { return [Error("XADD fields and values must be strings")]; }
      var key := Arg(arr, 1);
      var v := store.Get(key, env.now);
      if v.Some? && !v.value.Stream? { return [Error(WRONG_TYPE)]; }
      var r := store.XAdd(key, Arg(arr, 2), fields.value, Millis(env));
      replies := [XAddReply(r)];
    }

    // ---- Transactions ------------------------------------------------------------------------

    method HandleMULTI(conn: Conn, arr: Command) returns (replies: seq<Reply>)
      modifies store
      ensures var e := ExecMULTI(old(store.Model()), conn, arr);
              Did(old(repl.Model()), old(aof), Some(conn), e) && replies == e.replies
    {
      if |arr| != 1 { return [Error("wrong number of arguments for 'MULTI' command")]; }
      var started := store.StartTx(conn);
      replies := [if started then OK else Error("ERR MULTI calls can not be nested")];
    }

    method HandleDISCARD(conn: Conn, arr: Command) returns (replies: seq<Reply>)
      modifies store
      ensures var e := ExecDISCARD(old(store.Model()), conn, arr);
              Did(old(repl.Model()), old(aof), Some(conn), e) && replies == e.replies
    {
      if |arr| != 1 { return [Error("wrong number of arguments for 'DISCARD' command")]; }
      if conn !in store.transactions { return [Error("DISCARD without MULTI")]; }
      var _ := store.GetAndClearTx(conn);
      store.Unwatch(conn);
      replies := [OK];
    }

    method HandleWATCH(conn: Conn, arr: Command) returns (replies: seq<Reply>)
      modifies store
      ensures var e := ExecWATCH(old(store.Model()), conn, arr);
              Did(old(repl.Model()), old(aof), Some(conn), e) && replies == e.replies
    {
      if |arr| < 2 { return [Error("wrong number of arguments for 'WATCH' command")]; }
      if conn in store.transactions { return [Error("WATCH inside MULTI is not allowed")]; }
      var keys := CollectStrings(arr, 1);
      store.Watch(conn, keys);
      replies := [OK];
    }

    method HandleUNWATCH(conn: Option<Conn>, arr: Command) returns (replies: seq<Reply>)
      modifies store
      ensures var e := ExecUNWATCH(old(store.Model()), conn, arr);
              Did(old(repl.Model()), old(aof), conn, e) && replies == e.replies
    {
      if |arr| != 1 { return [Error("wrong number of arguments for 'UNWATCH' command")]; }
      if conn.None? { return [Crash]; }
      store.Unwatch(conn.value);
      replies := [OK];
    }

    /** What a handler that is left out does, as the parameter says. */
    method HandleLeftOut(conn: Option<Conn>, arr: Command, env: Env) returns (replies: seq<Reply>)
      modifies this, store, repl
      ensures var e := ExecLeftOut(old(store.Model()), conn, arr, env);
              Did(old(repl.Model()), old(aof), conn, e) && replies == e.replies
    {
      var out := LeftOutOf(store.Model(), conn, arr, env);
      var d := Run(store.Model(), out.run);
      store.cache, store.expiry, store.waiters, store.mail := d.cache, d.expiry, d.waiters, d.mail;
      store.transactions, store.watchedKeys, store.dirtyClients := d.transactions, d.watchedKeys, d.dirtyClients;
      if out.logged && LogsWhenLeftOut(arr) { PersistWriteCommand(conn, arr); }
      replies := out.replies;
    }

    /** The switch of handleCommand, without the commands that pass the transaction gate. */
    method HandleData(conn: Option<Conn>, arr: Command, env: Env) returns (replies: seq<Reply>)
      modifies this, store, repl
      ensures var e := Data(old(store.Model()), conn, arr, env);
              Did(old(repl.Model()), old(aof), conn, e) && replies == e.replies
    {
      match KindOf(arr) {
        case Nameless => replies := [];
        case SET | GET | INCR => replies := HandleValue(conn, arr, env);
        case ZADD | ZREM | XADD => replies := HandleCollection(conn, arr, env);
        case LPUSH => replies := HandlePush(conn, true, arr, env);
        case RPUSH => replies := HandlePush(conn, false, arr, env);
        case LPOP | RPOP => replies := HandlePop(conn, arr, env);
        case UNWATCH => replies := HandleUNWATCH(conn, arr);
        case Outside => replies := HandleLeftOut(conn, arr, env);
        case _ => replies := [Error("unknown command")];
      }
    }

    method HandleValue(conn: Option<Conn>, arr: Command, env: Env) returns (replies: seq<Reply>)
      requires KindOf(arr).SET? || KindOf(arr).GET? || KindOf(arr).INCR?
      modifies this, store, repl
      ensures var e := Data(old(store.Model()), conn, arr, env);
              Did(old(repl.Model()), old(aof), conn, e) && replies == e.replies
    {
      match KindOf(arr) {
        case SET => replies := HandleSET(conn, arr, env);
        case GET => replies := HandleGET(conn, arr, env);
        case INCR => replies := HandleINCR(conn, arr);
      }
    }

    method HandleCollection(conn: Option<Conn>, arr: Command, env: Env) returns (replies: seq<Reply>)
      requires KindOf(arr).ZADD? || KindOf(arr).ZREM? || KindOf(arr).XADD?
      modifies this, store, repl
      ensures var e := Data(old(store.Model()), conn, arr, env);
              Did(old(repl.Model()), old(aof), conn, e) && replies == e.replies
    {
      match KindOf(arr) {
        case ZADD => replies := HandleZADD(conn, arr, env);
        case ZREM => replies := HandleZREM(conn, arr);
        case XADD => replies := HandleXADD(conn, arr, env);
      }
    }

    method HandlePop(conn: Option<Conn>, arr: Command, env: Env) returns (replies: seq<Reply>)
      requires KindOf(arr).LPOP? || KindOf(arr).RPOP?
      modifies this, store, repl
      ensures var e := if KindOf(arr).LPOP? then ExecLPOP(old(store.Model()), arr, env)
                       else ExecRPOP(old(store.Model()), arr, env);
              Did(old(repl.Model()), old(aof), conn, e) && replies == e.replies
    {
      if KindOf(arr).LPOP? { replies := HandleLPOP(conn, arr, env); } else { replies := HandleRPOP(conn, arr, env); }
    }

    /** One round of the loop of handleEXEC. */
    method RunNext(conn: Conn, arr: Command, env: Env, ghost r: Repl, ghost file: string, ghost done: Effect)
      returns (more: seq<Reply>, ghost next: Effect)
      requires Did(r, file, Some(conn), done)
      modifies this, store, repl
      ensures next == Data(done.d, Some(conn), arr, env) && more == next.replies
      ensures Did(r, file, Some(conn), Then(done, next))
    {
      ghost var r1, file1 := repl.Model(), aof;
      next := Data(store.Model(), Some(conn), arr, env);
      more := HandleData(Some(conn), arr, env);
      DidThen(r, file, Some(conn), done, r1, file1, next);
    }

    lemma DidThen(r: Repl, file: string, conn: Option<Conn>, done: Effect, r1: Repl, file1: string, next: Effect)
      requires r1 == PropagateAll(r, done.persisted) && file1 == file + Appended(conn, done.persisted)
      requires Did(r1, file1, conn, next)
      ensures Did(r, file, conn, Then(done, next))
    {
      EffectsAdd(r, done.persisted, next.persisted);
      AppendedBoth(file, conn, done.persisted, next.persisted);
    }

    lemma AppendedBoth(file: string, conn: Option<Conn>, a: seq<Command>, b: seq<Command>)
      ensures file + Appended(conn, a + b) == file + Appended(conn, a) + Appended(conn, b)
    {
      EncodeAllAppend(a, b);
      Glue(file, EncodeAll(a), EncodeAll(b));
    }

    /** The loop of handleEXEC. */
    method RunQueue(conn: Conn, queue: seq<Command>, env: Env) returns (replies: seq<Reply>)
      modifies this, store, repl
      ensures var e := ExecQueue(old(store.Model()), conn, queue, env);
              Did(old(repl.Model()), old(aof), Some(conn), e) && replies == e.replies
    {
      ghost var r, file := repl.Model(), aof;
      ghost var done := Effect(store.Model(), [], []);
      ghost var all := ExecQueue(store.Model(), conn, queue, env);
      var i, moment := 0, env;
      replies := [];
      assert queue[0..] == queue;
      while i < |queue|
        invariant 0 <= i <= |queue|
        invariant Did(r, file, Some(conn), done) && replies == done.replies
        invariant all == Then(done, ExecQueue(done.d, conn, queue[i..], moment))
      {
        assert queue[i..][1..] == queue[i + 1..];
        ghost var next;
        var more: seq<Reply>;
        QueueNext(done, conn, queue[i..], moment);
        more, next := RunNext(conn, queue[i], moment, r, file, done);
        replies := replies + more;
        done := Then(done, next);
        i, moment := i + 1, Next(moment);
      }
      assert done.persisted + [] == done.persisted && done.replies + [] == done.replies;
    }

    method HandleEXEC(conn: Conn, arr: Command, env: Env) returns (replies: seq<Reply>)
      modifies this, store, repl
      ensures var e := ExecEXEC(old(store.Model()), conn, arr, env);
              Did(old(repl.Model()), old(aof), Some(conn), e) && replies == e.replies
    {
      if |arr| != 1 { return [Error("wrong number of arguments for 'EXEC' command")]; }
      var queue := store.GetAndClearTx(conn);
      if queue.None? { return [Error("EXEC without MULTI")]; }
      var isDirty := store.IsDirty(conn);
      store.Unwatch(conn);
      if isDirty { return [NullArray]; }
      var run := RunQueue(conn, queue.value, env);
      replies := [Header(|queue.value|)] + run;
    }

    /** handleCommand for replayed commands and for those a replica receives. */
    method HandleWithoutClient(arr: Command, env: Env) returns (replies: seq<Reply>)
      modifies this, store, repl
      ensures var e := Handle(old(store.Model()), None, arr, env);
              Did(old(repl.Model()), old(aof), None, e) && replies == e.replies
      ensures aof == old(aof)
    {
      var kind := KindOf(arr);
      if IsControl(kind) { return [WithoutClient(kind, arr)]; }
      replies := HandleData(None, arr, env);
    }

    /** handleCommand for a client. */
    method HandleCommand(conn: Conn, arr: Command, env: Env) returns (replies: seq<Reply>)
      modifies this, store, repl
      ensures var e := Handle(old(store.Model()), Some(conn), arr, env);
              Did(old(repl.Model()), old(aof), Some(conn), e) && replies == e.replies
      ensures appendonly ==>
                aof == old(aof) + EncodeAll(Handle(old(store.Model()), Some(conn), arr, env).persisted)
      ensures !appendonly ==> aof == old(aof)
    {
      var kind := KindOf(arr);
      if !kind.Nameless? && conn in store.transactions && !PassesGate(kind) {
        store.QueueCommand(conn, arr);
        return [Queued];
      }
      if IsControl(kind) {
        replies := HandleTransaction(conn, arr, env);
      } else {
        replies := HandleData(Some(conn), arr, env);
      }
    }

    method HandleTransaction(conn: Conn, arr: Command, env: Env) returns (replies: seq<Reply>)
      requires IsControl(KindOf(arr))
      modifies this, store, repl
      ensures var e := Control(old(store.Model()), conn, arr, env);
              Did(old(repl.Model()), old(aof), Some(conn), e) && replies == e.replies
    {
      match KindOf(arr) {
        case MULTI => replies := HandleMULTI(conn, arr);
        case EXEC => replies := HandleEXEC(conn, arr, env);
        case DISCARD => replies := HandleDISCARD(conn, arr);
        case WATCH => replies := HandleWATCH(conn, arr);
      }
    }

    /** What handleConnection defers to the end of a connection. */
    method CloseConnection(conn: Conn)
      modifies store, repl
      ensures store.Model() == ClearTx(Unwatch(old(store.Model()), conn), conn)
      ensures repl.Model() == RemoveReplica(old(repl.Model()), conn)
    {
      repl.RemoveReplica(conn);
      store.Unwatch(conn);
      var _ := store.GetAndClearTx(conn);
    }

    // ---- Replay ----------------------------------------------------------------------------------

    /** replayAOFCommands: every value the reader gives, until its first error; only the end of
        the file is a clean end. Nothing is appended to the file. */
    method ReplayAOF(reader: Reader, envs: seq<Env>) returns (clean: bool)
      requires reader.Valid() && |envs| == |Decode(reader.Left()).0|
      modifies this, store, repl, reader
      ensures (store.Model(), clean) == Replay(old(store.Model()), old(reader.Left()), envs)
      ensures aof == old(aof)
    {
      ghost var all := ReplayValues(store.Model(), Decode(reader.Left()).0, envs);
      var i := 0;
      assert envs[0..] == envs;
      while true
        invariant reader.Valid() && i <= |envs| && |envs| - i == |Decode(reader.Left()).0|
        invariant all == ReplayValues(store.Model(), Decode(reader.Left()).0, envs[i..])
        invariant Decode(reader.Left()).1 == Decode(old(reader.Left())).1 && aof == old(aof)
        decreases |reader.Left()|
      {
        DecodeNext(reader.Left());
        ghost var values, d := Decode(reader.Left()).0, store.Model();
        var o := ParseRESP(reader);
        if o.Failure? { return EndsCleanly(o.failure); }
        assert envs[i..][1..] == envs[i + 1..];
        if o.value.Arr? && o.value.items != [] {
          var _ := HandleWithoutClient(o.value.items, envs[i]);
        }
        ReplayNext(d, values, envs[i..], store.Model());
        i := i + 1;
      }
    }
  }

  lemma DecodeNext(s: string)
    ensures match Parse(s)
            case Failed(f) => Decode(s) == ([], f)
            case Parsed(v, rest) => Decode(s) == ([v] + Decode(rest).0, Decode(rest).1)
  {
  }

  lemma ReplayNext(d: State, values: seq<Value>, envs: seq<Env>, d': State)
    requires values != [] && |envs| == |values| && d' == ReplayOne(d, values[0], envs[0])
    ensures ReplayValues(d, values, envs) == ReplayValues(d', values[1..], envs[1..])
  {
  }

  lemma PropagateOne(m: Repl, arr: Command)
    ensures PropagateAll(m, [arr]) == Propagate(m, arr)
  {
    assert [arr][1..] == [];
  }

  /** The string arguments from an index on. */
  method CollectStrings(arr: Command, start: nat) returns (values: seq<string>)
    requires start <= |arr|
    ensures values == StringsFrom(arr, start)
  {
    values := [];
    var i := start;
    while i < |arr|
      invariant start <= i <= |arr|
      invariant StringsFrom(arr, start) == values + StringsFrom(arr, i)
    {
      if arr[i].Str? { values := values + [arr[i].s]; }
      i := i + 1;
    }
    assert values + [] == values;
  }

  /** The same, unless an argument is not a string. */
  method CollectOnlyStrings(arr: Command, start: nat) returns (values: Option<seq<string>>)
    requires start <= |arr|
    ensures values.None? <==> exists i :: start <= i < |arr| && !arr[i].Str?
    ensures values.Some? ==> values.value == StringsFrom(arr, start)
  {
    var i := start;
    while i < |arr|
      invariant start <= i <= |arr|
      invariant forall j :: start <= j < i ==> arr[j].Str?
    {
      if !arr[i].Str? { return None; }
      i := i + 1;
    }
    var strings := CollectStrings(arr, start);
    values := Some(strings);
  }

  lemma QueueUnfolds(d: State, c: Conn, queue: seq<Command>, env: Env)
    requires queue != []
    ensures var first := Data(d, Some(c), queue[0], env);
            ExecQueue(d, c, queue, env) == Then(first, ExecQueue(first.d, c, queue[1..], Next(env)))
  {
  }

  lemma QueueNext(done: Effect, c: Conn, queue: seq<Command>, env: Env)
    requires queue != []
    ensures var first := Data(done.d, Some(c), queue[0], env);
            Then(done, ExecQueue(done.d, c, queue, env))
            == Then(Then(done, first), ExecQueue(first.d, c, queue[1..], Next(env)))
  {
    var first := Data(done.d, Some(c), queue[0], env);
    QueueUnfolds(done.d, c, queue, env);
    ThenThen(done, first, ExecQueue(first.d, c, queue[1..], Next(env)));
  }

  lemma {:induction false} EffectsAdd(m: Repl, a: seq<Command>, b: seq<Command>)
    ensures PropagateAll(m, a + b) == PropagateAll(PropagateAll(m, a), b)
    ensures EncodeAll(a + b) == EncodeAll(a) + EncodeAll(b)
    decreases |a|
  {
    EncodeAllAppend(a, b);
    if a == [] {
      assert a + b == b;
    } else {
      assert (a + b)[1..] == a[1..] + b;
      EffectsAdd(Propagate(m, a[0]), a[1..], b);
    }
  }
}
