/** What a parsed command does (app/commands.go): to the store, to the log and the replicas, and
    to its client. Server.dfy proves the handlers against these functions. Each command is one
    step; its handler takes several critical sections. */
module Commands {
  import opened Strconv
  import opened RespStream
  import opened StreamIds
  import opened StoreModel
  import opened Sections
  import opened Expiry

  datatype Reply =
    | OK
    | Error(text: string)
    | NullBulk
    | NullArray
    | Integer(n: int)
    | Bulk(text: string)
    | BulkArray(items: seq<string>)
    | Queued
    | Header(length: nat)   // the array header EXEC writes before its replies
    | Crash                 // a panic: it ends the process, and with it everything below

  /** `persisted` are the commands sent to the replicas and, for a client's command, the log. */
  datatype Effect = Effect(d: State, persisted: seq<Command>, replies: seq<Reply>)

  /** A critical section of the store that has nothing to do with transactions and watches. */
  predicate OfStore(s: Section) {
    && !s.DoStartTx? && !s.DoQueue? && !s.DoClearTx? && !s.DoWatch? && !s.DoUnwatch?
    && (s.DoSet? ==> s.value.Text? || s.value.List?)
  }

  type StoreSection = s: Section | OfStore(s) witness DoIncr("")

  /** What a command whose handler is left out does: critical sections of the store, an answer, and
      whether it is logged. */
  datatype LeftOut = LeftOut(run: seq<StoreSection>, replies: seq<Reply>, logged: bool)

  /** strconv.ParseFloat is not modelled. The clock is in nanoseconds: `now`, and what the commands
      of a queue read after it. A left-out command may depend on the time and the store, whose
      queues it does not see. */
  datatype Env = Env(
    parseFloat: string -> Option<Score>,
    now: int,
    later: nat -> int,
    leftOut: (State, Option<Conn>, Command, int) -> LeftOut)

  /** What the next command of a queue finds. */
  function Next(env: Env): Env { env.(now := env.later(0), later := (i: nat) => env.later(i + 1)) }

  function Millis(env: Env): int { env.now / 1_000_000 }

  /** asString: the text of an argument, empty when it is not a string. */
  function Arg(arr: Command, i: nat): string {
    if i < |arr| && arr[i].Str? then arr[i].s else ""
  }

  /** What handleCommand makes of the first element of an array. */
  datatype Kind =
    | SET | GET | INCR | ZADD | ZREM | LPUSH | RPUSH | LPOP | RPOP | XADD
    | MULTI | EXEC | DISCARD | WATCH | UNWATCH | QUIT
    | Nameless   // no array element, or not a string: ignored
    | Unknown
    | Outside    // a command whose handler this model leaves out

  /** The commands whose handlers this model leaves out. */
  const OUTSIDE: set<string> := {
    "AUTH", "PING", "REPLCONF", "WAIT", "PSYNC", "ECHO", "LRANGE", "LLEN", "BLPOP", "CONFIG", "KEYS", "ZRANGE",
    "ZRANK", "ZCARD", "ZSCORE", "SUBSCRIBE", "PUBLISH", "UNSUBSCRIBE", "TYPE", "XRANGE", "XREAD", "GEOADD", "GEOPOS",
    "GEODIST", "GEOSEARCH", "INFO", "ACL" }

  function KindOf(arr: Command): Kind {
    if arr == [] || !arr[0].Str? then Nameless
    else match ToUpper(arr[0].s)
      case "SET" => SET
      case "GET" => GET
      case "INCR" => INCR
      case "ZADD" => ZADD
      case "ZREM" => ZREM
      case "LPUSH" => LPUSH
      case "RPUSH" => RPUSH
      case "LPOP" => LPOP
      case "RPOP" => RPOP
      case "XADD" => XADD
      case "MULTI" => MULTI
      case "EXEC" => EXEC
      case "DISCARD" => DISCARD
      case "WATCH" => WATCH
      case "UNWATCH" => UNWATCH
      case "QUIT" => QUIT
      case name => if name in OUTSIDE then Outside else Unknown
  }

  function Only(d: State, reply: Reply): Effect { Effect(d, [], [reply]) }

  // ---- Data commands --------------------------------------------------------------------

  /** The time to live in milliseconds that SET asks for. */
  function ParseTTL(arr: Command): Option<int> {
    var opt := ToUpper(Arg(arr, 3));
    var ttl := Atoi(Arg(arr, 4));
    if |arr| < 5 || (opt != "EX" && opt != "PX") || !ttl.Parsed? then None
    else Some(if opt == "EX" then SecondsToMillis(ttl.value) else ttl.value)
  }

  function ExecSET(d: State, arr: Command, env: Env): Effect {
    if |arr| < 3 then Only(d, Error("wrong number of arguments for 'SET' command"))
    else
      var key, stored := Arg(arr, 1), SetValue(d, Arg(arr, 1), Text(Arg(arr, 2)));
      var ttl := ParseTTL(arr);
      var d' := if ttl.Some? then SetExpiry(stored, key, Deadline(env.now, ttl.value)) else stored;
      Effect(d', [arr], [OK])
  }

  function ExecGET(d: State, arr: Command, env: Env): Effect {
    if |arr| < 2 then Only(d, Error("wrong number of arguments for 'GET' command"))
    else
      var (d', value) := Get(d, Arg(arr, 1), env.now);
      match value
      case None => Only(d', NullBulk)
      case Some(Text(text)) => Only(d', Bulk(text))
      case Some(_) => Only(d', Crash)
  }

  function ExecINCR(d: State, arr: Command): Effect {
    if |arr| < 2 then Only(d, Error("wrong number of arguments for 'INCR' command"))
    else
      var (d', n) := Incr(d, Arg(arr, 1));
      if n.None? then Only(d', Error("value is not an integer or out of range"))
      else Effect(d', [arr], [Integer(n.value)])
  }

  /** The loop over score-member pairs from index i, with the count so far; it stops at the first
      bad score, and what was added before stays. */
  function ZAddFrom(d: State, key: string, arr: Command, i: nat, env: Env, count: int): (State, Option<int>)
    requires i <= |arr| && (|arr| - i) % 2 == 0
    decreases |arr| - i
  {
    if i == |arr| then (d, Some(count))
    else
      var score := env.parseFloat(Arg(arr, i));
      if score.None? then (d, None)
      else
        var (d1, added) := ZAdd(d, key, score.value, Arg(arr, i + 1));
        ZAddFrom(d1, key, arr, i + 2, env, count + added)
  }

  function ExecZADD(d: State, arr: Command, env: Env): Effect {
    if |arr| < 4 || |arr| % 2 != 0 then Only(d, Error("wrong number of arguments for 'ZADD' command"))
    else
      var (d', added) := ZAddFrom(d, Arg(arr, 1), arr, 2, env, 0);
      if added.None? then Only(d', Error("ERR value is not a valid float"))
      else Effect(d', [arr], [Integer(added.value)])
  }

  /** The string arguments from index i on; others are skipped. */
  function StringsFrom(arr: Command, i: nat): seq<string>
    requires i <= |arr|
    decreases |arr| - i
  {
    if i == |arr| then []
    else (if arr[i].Str? then [arr[i].s] else []) + StringsFrom(arr, i + 1)
  }

  function ExecZREM(d: State, arr: Command): Effect {
    if |arr| < 3 then Only(d, Error("wrong number of arguments for 'ZREM' command"))
    else
      var (d', removed) := ZRem(d, Arg(arr, 1), StringsFrom(arr, 2));
      Only(d', Integer(removed))
  }

  /** LPUSH and RPUSH. */
  function ExecPush(d: State, client: bool, left: bool, arr: Command, env: Env): Effect {
    var name := if left then "LPUSH" else "RPUSH";
    if |arr| < 3 then Only(d, Error("wrong number of arguments for '" + name + "' command"))
    else if exists i :: 2 <= i < |arr| && !arr[i].Str? then Only(d, Error(name + " values must be strings"))
    else
      var (d', length) := PushTo(d, left, Arg(arr, 1), StringsFrom(arr, 2), env.now);
      Effect(d', [arr], [if client then Integer(length) else Crash])   // writes its reply to a nil connection
  }

  /** Drop an expired key, serve the waiters, push the rest. The length reported counts the
      values handed over too. */
  function PushTo(d: State, left: bool, key: string, values: seq<string>, now: int): (State, int) {
    var d1 := Get(d, key, now).0;
    var (d2, remaining) := HandOff(d1, key, values, []);
    var d3 := if remaining == [] then d2 else if left then LPush(d2, key, remaining) else RPush(d2, key, remaining);
    (d3, |ListAt(d1, key)| + |values|)
  }

  function ExecLPOP(d: State, arr: Command, env: Env): Effect {
    if |arr| < 2 then Only(d, Error("wrong number of arguments for 'LPOP' command"))
    else if |arr| == 3 && !arr[2].Str? then Only(d, Crash)
    else
      var count := if |arr| == 3 then Atoi(Arg(arr, 2)).ValueIgnoringError() else 1;
      var (d', reply) := LPop(d, Arg(arr, 1), count, env.now);
      Effect(d', if reply.Bulk? || reply.BulkArray? then [arr] else [], [reply])
  }

  function LPop(d: State, key: string, count: int, now: int): (State, Reply) {
    var (d', value) := Get(d, key, now);
    var (reply, left) := TakeFront(value, count);
    (if left.Some? then SetValue(d', key, List(left.value)) else d', reply)
  }

  /** The reply of LPOP and, if something is taken, what stays in the list. */
  function TakeFront(value: Option<Datum>, count: int): (Reply, Option<seq<string>>) {
    if value.None? then (NullBulk, None)
    else if !value.value.List? then (Error("LPOP key is not a list"), None)
    else
      var items := value.value.items;
      if items == [] then (NullBulk, None)
      else if count <= 0 then (Error("LPOP count must be a positive integer"), None)
      else
        var n := if count > |items| then |items| else count;
        (if n == 1 then Bulk(items[0]) else BulkArray(items[..n]), Some(items[n..]))
  }

  function ExecRPOP(d: State, arr: Command, env: Env): Effect {
    if |arr| < 2 then Only(d, Error("wrong number of arguments for 'RPOP' command"))
    else
      var (d', reply) := RPop(d, Arg(arr, 1), env.now);
      Effect(d', if reply.Bulk? then [arr] else [], [reply])
  }

  function RPop(d: State, key: string, now: int): (State, Reply) {
    var (d', value) := Get(d, key, now);
    var (reply, left) := TakeBack(value);
    (if left.Some? then SetValue(d', key, List(left.value)) else d', reply)
  }

  function TakeBack(value: Option<Datum>): (Reply, Option<seq<string>>) {
    if value.None? then (NullBulk, None)
    else if !value.value.List? then (Error("RPOP key is not a list"), None)
    else
      var items := value.value.items;
      if items == [] then (NullBulk, None) else (Bulk(items[|items| - 1]), Some(items[..|items| - 1]))
  }

  const WRONG_TYPE: string := "WRONGTYPE Operation against a key holding the wrong kind of value"
  const NOT_ABOVE_ZERO: string := "The ID specified in XADD must be greater than 0-0"
  const NOT_ABOVE_TOP: string := "The ID specified in XADD is equal or smaller than the target stream top item"

  function XAddReply(r: XAddResult): Reply {
    match r
    case Added(id) => Bulk(id)
    case BadID => Error("invalid stream ID specified")
    case WrongType => Error(WRONG_TYPE)
    case NotAboveZero => Error(NOT_ABOVE_ZERO)
    case NotAboveTop => Error(NOT_ABOVE_TOP)
  }

  function XADDProblem(arr: Command): Option<string> {
    if |arr| < 5 then Some("wrong number of arguments for 'XADD' command")
    else if (|arr| - 3) % 2 != 0 then
      Some("wrong number of arguments for 'XADD' command: fields must be key value pairs")
    else if exists i :: 3 <= i < |arr| && !arr[i].Str? then Some("XADD fields and values must be strings")
    else None
  }

  function ExecXADD(d: State, arr: Command, env: Env): Effect {
    if XADDProblem(arr).Some? then Only(d, Error(XADDProblem(arr).value))
    else AppendTo(d, Arg(arr, 1), Arg(arr, 2), StringsFrom(arr, 3), env)
  }

  function AppendTo(d: State, key: string, id: string, fields: seq<string>, env: Env): Effect {
    var (d1, value) := Get(d, key, env.now);
    if value.Some? && !value.value.Stream? then Only(d1, Error(WRONG_TYPE))
    else
      var (d2, r) := XAdd(d1, key, id, fields, Millis(env));
      Only(d2, XAddReply(r))
  }

  /** A command that is neither EXEC nor one of the others that pass the transaction gate. */
  function Data(d: State, conn: Option<Conn>, arr: Command, env: Env): Effect {
    match KindOf(arr)
    case Nameless => Effect(d, [], [])
    case SET => ExecSET(d, arr, env)
    case GET => ExecGET(d, arr, env)
    case INCR => ExecINCR(d, arr)
    case ZADD => ExecZADD(d, arr, env)
    case ZREM => ExecZREM(d, arr)
    case LPUSH => ExecPush(d, conn.Some?, true, arr, env)
    case RPUSH => ExecPush(d, conn.Some?, false, arr, env)
    case LPOP => ExecLPOP(d, arr, env)
    case RPOP => ExecRPOP(d, arr, env)
    case XADD => ExecXADD(d, arr, env)
    case UNWATCH => ExecUNWATCH(d, conn, arr)
    case Outside => ExecLeftOut(d, conn, arr, env)
    case _ => Only(d, Error("unknown command"))
  }

  function LeftOutOf(d: State, conn: Option<Conn>, arr: Command, env: Env): LeftOut {
    env.leftOut(d.(transactions := map[]), conn, arr, env.now)
  }

  /** Of the commands left out only BLPOP is logged, when it finds a value. */
  predicate LogsWhenLeftOut(arr: Command) { arr != [] && arr[0].Str? && ToUpper(arr[0].s) == "BLPOP" }

  function ExecLeftOut(d: State, conn: Option<Conn>, arr: Command, env: Env): Effect {
    var out := LeftOutOf(d, conn, arr, env);
    Effect(Run(d, out.run), if out.logged && LogsWhenLeftOut(arr) then [arr] else [], out.replies)
  }

  // ---- Transactions ---------------------------------------------------------------------

  function ExecUNWATCH(d: State, conn: Option<Conn>, arr: Command): Effect {
    if |arr| != 1 then Only(d, Error("wrong number of arguments for 'UNWATCH' command"))
    else if conn.None? then Only(d, Crash)
    else Only(Unwatch(d, conn.value), OK)
  }

  function ExecMULTI(d: State, c: Conn, arr: Command): Effect {
    if |arr| != 1 then Only(d, Error("wrong number of arguments for 'MULTI' command"))
    else
      var (d', started) := StartTx(d, c);
      Only(d', if started then OK else Error("ERR MULTI calls can not be nested"))
  }

  function ExecDISCARD(d: State, c: Conn, arr: Command): Effect {
    if |arr| != 1 then Only(d, Error("wrong number of arguments for 'DISCARD' command"))
    else if c !in d.transactions then Only(d, Error("DISCARD without MULTI"))
    else Only(Unwatch(ClearTx(d, c), c), OK)
  }

  function ExecWATCH(d: State, c: Conn, arr: Command): Effect {
    if |arr| < 2 then Only(d, Error("wrong number of arguments for 'WATCH' command"))
    else if c in d.transactions then Only(d, Error("WATCH inside MULTI is not allowed"))
    else Only(Watch(d, c, StringsFrom(arr, 1)), OK)
  }

  /** The loop of EXEC. The gate below queues none of the five commands that pass it, so every
      queued command is a data command. */
  function ExecQueue(d: State, c: Conn, queue: seq<Command>, env: Env): Effect
    decreases |queue|
  {
    if queue == [] then Effect(d, [], [])
    else
      var first := Data(d, Some(c), queue[0], env);
      var rest := ExecQueue(first.d, c, queue[1..], Next(env));
      Effect(rest.d, first.persisted + rest.persisted, first.replies + rest.replies)
  }

  function ExecEXEC(d: State, c: Conn, arr: Command, env: Env): Effect {
    if |arr| != 1 then Only(d, Error("wrong number of arguments for 'EXEC' command"))
    else if c !in d.transactions then Only(ClearTx(d, c), Error("EXEC without MULTI"))
    else
      var queue, d1 := d.transactions[c], Unwatch(ClearTx(d, c), c);
      if c in d.dirtyClients then Only(d1, NullArray)
      else
        var run := ExecQueue(d1, c, queue, env);
        Effect(run.d, run.persisted, [Header(|queue|)] + run.replies)
  }

  predicate IsControl(kind: Kind) { kind.MULTI? || kind.EXEC? || kind.DISCARD? || kind.WATCH? }

  /** The commands a client in a transaction can have executed rather than queued. */
  predicate PassesGate(kind: Kind) { IsControl(kind) || kind.QUIT? }

  function Control(d: State, c: Conn, arr: Command, env: Env): Effect
    requires IsControl(KindOf(arr))
  {
    match KindOf(arr)
    case MULTI => ExecMULTI(d, c, arr)
    case EXEC => ExecEXEC(d, c, arr, env)
    case DISCARD => ExecDISCARD(d, c, arr)
    case WATCH => ExecWATCH(d, c, arr)
  }

  /** handleCommand. */
  function Handle(d: State, conn: Option<Conn>, arr: Command, env: Env): Effect {
    var kind := KindOf(arr);
    if conn.None? then
      if IsControl(kind) then Only(d, WithoutClient(kind, arr)) else Data(d, conn, arr, env)
    else
      var c := conn.value;
      if !kind.Nameless? && c in d.transactions && !PassesGate(kind) then Only(QueueCommand(d, c, arr), Queued)
      else if IsControl(kind) then Control(d, c, arr, env)
      else Data(d, conn, arr, env)
  }

  /** Replayed or received from the master, a transaction command logs the address of a nil
      connection. */
  function WithoutClient(kind: Kind, arr: Command): Reply {
    if if kind.WATCH? then |arr| >= 2 else |arr| == 1 then Crash else Error("wrong number of arguments")
  }

  // ---- Runs of commands -------------------------------------------------------------------

  datatype Call = Call(conn: Option<Conn>, arr: Command, env: Env)

  function Serve(d: State, call: Call): Effect { Handle(d, call.conn, call.arr, call.env) }

  /** One effect after another. */
  function Then(a: Effect, b: Effect): Effect {
    Effect(b.d, a.persisted + b.persisted, a.replies + b.replies)
  }

  lemma ThenThen(a: Effect, b: Effect, c: Effect)
    ensures Then(a, Then(b, c)) == Then(Then(a, b), c)
  {
    assert a.persisted + (b.persisted + c.persisted) == a.persisted + b.persisted + c.persisted;
    assert a.replies + (b.replies + c.replies) == a.replies + b.replies + c.replies;
  }

  /** A run of calls, and everything it persists and answers. */
  function RunWith(serve: (State, Call) -> Effect, d: State, calls: seq<Call>): Effect
    decreases |calls|
  {
    if calls == [] then Effect(d, [], [])
    else
      var first := serve(d, calls[0]);
      Then(first, RunWith(serve, first.d, calls[1..]))
  }

  function ServeAll(d: State, calls: seq<Call>): State { RunWith(Serve, d, calls).d }

  function Persisted(d: State, calls: seq<Call>): seq<Command> { RunWith(Serve, d, calls).persisted }

  function Answers(d: State, calls: seq<Call>): seq<Reply> { RunWith(Serve, d, calls).replies }

  lemma {:induction false} RunAppend(serve: (State, Call) -> Effect, d: State, a: seq<Call>, b: seq<Call>)
    ensures var first := RunWith(serve, d, a);
            RunWith(serve, d, a + b) == Then(first, RunWith(serve, first.d, b))
    decreases |a|
  {
    if a == [] {
      assert a + b == b;
    } else {
      var first := serve(d, a[0]);
      var rest := RunWith(serve, first.d, a[1..]);
      RunAppend(serve, first.d, a[1..], b);
      HeadOfAppend(a, b);
      ThenThen(first, rest, RunWith(serve, rest.d, b));
    }
  }

  lemma HeadOfAppend(a: seq<Call>, b: seq<Call>)
    requires a != []
    ensures (a + b)[0] == a[0] && (a + b)[1..] == a[1..] + b
  {
  }
}
