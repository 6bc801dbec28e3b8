/** What the handlers propagate is what the protocol expects of the master. */
module Propagation {
  import opened Resp
  import opened RespStream
  import opened StreamIds
  import opened StoreModel
  import opened Commands
  import opened Cluster

  predicate IsLogged(arr: Command) {
    match KindOf(arr)
    case SET | INCR | ZADD | LPUSH | RPUSH | LPOP | RPOP => true
    case _ => LogsWhenLeftOut(arr)
  }

  /** Nothing, or the command itself. */
  predicate Itself(e: Effect, arr: Command) { e.persisted == [] || e.persisted == [arr] }

  lemma ValuesPersist(d: State, arr: Command, env: Env)
    ensures Itself(ExecSET(d, arr, env), arr) && Itself(ExecINCR(d, arr), arr) && ExecGET(d, arr, env).persisted == []
  {
  }

  lemma SetsPersist(d: State, arr: Command, env: Env)
    ensures Itself(ExecZADD(d, arr, env), arr) && ExecZREM(d, arr).persisted == []
  {
  }

  lemma PushPersists(d: State, client: bool, left: bool, arr: Command, env: Env)
    ensures Itself(ExecPush(d, client, left, arr, env), arr)
  {
  }

  lemma PopsPersist(d: State, arr: Command, env: Env)
    ensures Itself(ExecLPOP(d, arr, env), arr) && Itself(ExecRPOP(d, arr, env), arr)
  {
  }

  lemma OthersPersist(d: State, conn: Option<Conn>, arr: Command, env: Env)
    ensures ExecXADD(d, arr, env).persisted == [] && ExecUNWATCH(d, conn, arr).persisted == []
  {
  }

  /** A data command propagates itself or nothing, and only if it is one of those that are logged. */
  lemma DataPersists(d: State, conn: Option<Conn>, arr: Command, env: Env)
    ensures Itself(Data(d, conn, arr, env), arr)
    ensures !IsLogged(arr) ==> Data(d, conn, arr, env).persisted == []
  {
    match KindOf(arr)
    case LPUSH | RPUSH | LPOP | RPOP => ListPersists(d, conn, arr, env);
    case SET | GET | INCR | ZADD | ZREM => OtherPersists(d, conn, arr, env);
    case _ => OthersPersist(d, conn, arr, env);
  }

  lemma OtherPersists(d: State, conn: Option<Conn>, arr: Command, env: Env)
    requires var kind := KindOf(arr); kind.SET? || kind.GET? || kind.INCR? || kind.ZADD? || kind.ZREM?
    ensures Itself(Data(d, conn, arr, env), arr)
    ensures KindOf(arr).GET? || KindOf(arr).ZREM? ==> Data(d, conn, arr, env).persisted == []
  {
    match KindOf(arr)
    case SET | GET | INCR => ValuesPersist(d, arr, env);
    case ZADD | ZREM => SetsPersist(d, arr, env);
  }

  lemma ListPersists(d: State, conn: Option<Conn>, arr: Command, env: Env)
    requires var kind := KindOf(arr); kind.LPUSH? || kind.RPUSH? || kind.LPOP? || kind.RPOP?
    ensures Itself(Data(d, conn, arr, env), arr)
  {
    match KindOf(arr)
    case LPUSH => PushPersists(d, conn.Some?, true, arr, env);
    case RPUSH => PushPersists(d, conn.Some?, false, arr, env);
    case LPOP | RPOP => PopsPersist(d, arr, env);
  }

  lemma {:induction false} QueuePersists(d: State, c: Conn, queue: seq<Command>, env: Env, i: nat)
    requires i < |ExecQueue(d, c, queue, env).persisted|
    ensures IsLogged(ExecQueue(d, c, queue, env).persisted[i])
    decreases |queue|
  {
    var first := Data(d, Some(c), queue[0], env);
    DataPersists(d, Some(c), queue[0], env);
    if i >= |first.persisted| { QueuePersists(first.d, c, queue[1..], Next(env), i - |first.persisted|); }
  }

  lemma ControlPersists(d: State, c: Conn, arr: Command, env: Env, i: nat)
    requires IsControl(KindOf(arr)) && i < |Control(d, c, arr, env).persisted|
    ensures IsLogged(Control(d, c, arr, env).persisted[i])
  {
    if KindOf(arr).EXEC? && |arr| == 1 && c in d.transactions && c !in d.dirtyClients {
      QueuePersists(Unwatch(ClearTx(d, c), c), c, d.transactions[c], env, i);
    }
  }

  /** Every propagated command is a write of the protocol: named, and not REPLCONF, so that no
      replica takes it for a GETACK. */
  lemma HandlerSendsWrites(d: State, conn: Option<Conn>, arr: Command, env: Env, i: nat)
    requires i < |Handle(d, conn, arr, env).persisted|
    ensures var cmd := Handle(d, conn, arr, env).persisted[i]; Fits(Arr(cmd)) ==> IsWrite(cmd)
  {
    var kind := KindOf(arr);
    if conn.Some? && IsControl(kind) {
      ControlPersists(d, conn.value, arr, env, i);
    } else {
      DataPersists(d, conn, arr, env);
    }
    LoggedIsWrite(Handle(d, conn, arr, env).persisted[i]);
  }

  lemma LoggedIsWrite(cmd: Command)
    ensures IsLogged(cmd) && Fits(Arr(cmd)) ==> IsWrite(cmd)
  {
  }
}
