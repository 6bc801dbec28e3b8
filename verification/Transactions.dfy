/** MULTI ... EXEC is deferred sequential composition: a transaction takes effect as if its
    commands were issued in order at the EXEC, and nothing of it happens before. */
module Transactions {
  import Strconv
  import opened RespStream
  import opened StreamIds
  import opened StoreModel
  import Expiry
  import opened Sections
  import opened Commands

  type Queues = map<Conn, seq<Command>>

  function WithQueues(d: State, t: Queues): State { d.(transactions := t) }

  // ---- Data commands do not see the queues ------------------------------------------------

  lemma {:induction false} HandOffUnseen(d: State, t: Queues, key: string, values: seq<string>, rest: seq<string>)
    ensures var (d', remaining) := HandOff(d, key, values, rest);
            HandOff(WithQueues(d, t), key, values, rest) == (WithQueues(d', t), remaining)
    decreases |values|
  {
    if values != [] {
      var queue := Waiters(d, key);
      if queue == [] {
        HandOffUnseen(d, t, key, values[1..], rest + [values[0]]);
      } else {
        HandOffUnseen(Send(SetWaiters(d, key, queue[1..]), queue[0], values[0]), t, key, values[1..], rest);
      }
    }
  }

  lemma {:induction false} NotifyUnseen(d: State, t: Queues, queue: seq<Chan>, id: string)
    ensures Notify(WithQueues(d, t), queue, id) == WithQueues(Notify(d, queue, id), t)
    decreases |queue|
  {
    if queue != [] { NotifyUnseen(Send(d, queue[0], id), t, queue[1..], id); }
  }

  lemma XAddUnseen(d: State, t: Queues, key: string, id: string, fields: seq<string>, nowMs: int)
    ensures var (d', r) := XAdd(d, key, id, fields, nowMs);
            XAdd(WithQueues(d, t), key, id, fields, nowMs) == (WithQueues(d', t), r)
  {
    var r := ChooseID(d, key, id, nowMs);
    assert ChooseID(WithQueues(d, t), key, id, nowMs) == r;
    if r.Added? {
      var d1 := Put(d, key, Stream(StreamAt(d, key) + [Entry(r.id, fields)]));
      NotifyUnseen(d1, t, Waiters(d1, key), r.id);
    }
  }

  lemma {:induction false} ZAddUnseen(d: State, t: Queues, key: string, arr: Command, i: nat, env: Env, n: int)
    requires i <= |arr| && (|arr| - i) % 2 == 0
    ensures var (d', added) := ZAddFrom(d, key, arr, i, env, n);
            ZAddFrom(WithQueues(d, t), key, arr, i, env, n) == (WithQueues(d', t), added)
    decreases |arr| - i
  {
    if i < |arr| && env.parseFloat(Arg(arr, i)).Some? {
      var score, member := env.parseFloat(Arg(arr, i)).value, Arg(arr, i + 1);
      var (d1, added) := ZAdd(d, key, score, member);
      assert ZAdd(WithQueues(d, t), key, score, member) == (WithQueues(d1, t), added);
      ZAddUnseen(d1, t, key, arr, i + 2, env, n + added);
    }
  }

  lemma PushUnseen(d: State, t: Queues, left: bool, key: string, values: seq<string>, now: int)
    ensures var (d', length) := PushTo(d, left, key, values, now);
            PushTo(WithQueues(d, t), left, key, values, now) == (WithQueues(d', t), length)
  {
    var d1 := Get(d, key, now).0;
    assert Get(WithQueues(d, t), key, now).0 == WithQueues(d1, t);
    HandOffUnseen(d1, t, key, values, []);
  }

  lemma AppendUnseen(d: State, t: Queues, key: string, id: string, fields: seq<string>, env: Env)
    ensures Unseen(AppendTo(WithQueues(d, t), key, id, fields, env), AppendTo(d, key, id, fields, env), t)
  {
    var (d1, value) := Get(d, key, env.now);
    assert Get(WithQueues(d, t), key, env.now) == (WithQueues(d1, t), value);
    XAddUnseen(d1, t, key, id, fields, Millis(env));
  }

  lemma LPopUnseen(d: State, t: Queues, key: string, count: int, now: int)
    ensures var (d', reply) := LPop(d, key, count, now);
            LPop(WithQueues(d, t), key, count, now) == (WithQueues(d', t), reply)
  {
    GetUnseen(d, t, key, now);
  }

  lemma RPopUnseen(d: State, t: Queues, key: string, now: int)
    ensures var (d', reply) := RPop(d, key, now);
            RPop(WithQueues(d, t), key, now) == (WithQueues(d', t), reply)
  {
    GetUnseen(d, t, key, now);
  }

  lemma GetUnseen(d: State, t: Queues, key: string, now: int)
    ensures var (d', value) := Get(d, key, now);
            Get(WithQueues(d, t), key, now) == (WithQueues(d', t), value)
  {
  }

  lemma ZRemUnseen(d: State, t: Queues, key: string, members: seq<string>)
    ensures var (d', removed) := ZRem(d, key, members);
            ZRem(WithQueues(d, t), key, members) == (WithQueues(d', t), removed)
  {
  }

  ghost predicate Unseen(with: Effect, without: Effect, t: Queues) {
    with == without.(d := WithQueues(without.d, t))
  }

  lemma DataUnseen(d: State, t: Queues, conn: Option<Conn>, arr: Command, env: Env)
    ensures Unseen(Data(WithQueues(d, t), conn, arr, env), Data(d, conn, arr, env), t)
  {
    match KindOf(arr)
    case SET | GET | INCR | UNWATCH => ValueKinds(d, t, conn, arr, env);
    case ZADD | ZREM | XADD => SetKinds(d, t, conn, arr, env);
    case LPUSH | RPUSH | LPOP | RPOP => ListKinds(d, t, conn, arr, env);
    case Outside => LeftOutUnseen(d, t, conn, arr, env);
    case _ => InertCase(d, t, conn, arr, env);
  }

  lemma ValueKinds(d: State, t: Queues, conn: Option<Conn>, arr: Command, env: Env)
    requires var kind := KindOf(arr); kind.SET? || kind.GET? || kind.INCR? || kind.UNWATCH?
    ensures Unseen(Data(WithQueues(d, t), conn, arr, env), Data(d, conn, arr, env), t)
  {
    match KindOf(arr)
    case SET => SETCase(d, t, conn, arr, env);
    case GET => GETCase(d, t, conn, arr, env);
    case INCR => INCRCase(d, t, conn, arr, env);
    case UNWATCH => UNWATCHCase(d, t, conn, arr, env);
  }

  lemma SetKinds(d: State, t: Queues, conn: Option<Conn>, arr: Command, env: Env)
    requires var kind := KindOf(arr); kind.ZADD? || kind.ZREM? || kind.XADD?
    ensures Unseen(Data(WithQueues(d, t), conn, arr, env), Data(d, conn, arr, env), t)
  {
    match KindOf(arr)
    case ZADD => ZADDCase(d, t, conn, arr, env);
    case ZREM => ZREMCase(d, t, conn, arr, env);
    case XADD => XADDCase(d, t, conn, arr, env);
  }

  lemma ListKinds(d: State, t: Queues, conn: Option<Conn>, arr: Command, env: Env)
    requires var kind := KindOf(arr); kind.LPUSH? || kind.RPUSH? || kind.LPOP? || kind.RPOP?
    ensures Unseen(Data(WithQueues(d, t), conn, arr, env), Data(d, conn, arr, env), t)
  {
    match KindOf(arr)
    case LPUSH => PUSHCase(d, t, conn, true, arr, env);
    case RPUSH => PUSHCase(d, t, conn, false, arr, env);
    case LPOP => LPOPCase(d, t, conn, arr, env);
    case RPOP => RPOPCase(d, t, conn, arr, env);
  }

  lemma ZADDCase(d: State, t: Queues, conn: Option<Conn>, arr: Command, env: Env)
    ensures Unseen(ExecZADD(WithQueues(d, t), arr, env), ExecZADD(d, arr, env), t)
  {
    if |arr| >= 4 && |arr| % 2 == 0 { ZAddUnseen(d, t, Arg(arr, 1), arr, 2, env, 0); }
  }

  lemma PUSHCase(d: State, t: Queues, conn: Option<Conn>, left: bool, arr: Command, env: Env)
    ensures Unseen(ExecPush(WithQueues(d, t), conn.Some?, left, arr, env), ExecPush(d, conn.Some?, left, arr, env), t)
  {
    if |arr| >= 3 { PushUnseen(d, t, left, Arg(arr, 1), StringsFrom(arr, 2), env.now); }
  }

  lemma XADDCase(d: State, t: Queues, conn: Option<Conn>, arr: Command, env: Env)
    ensures Unseen(ExecXADD(WithQueues(d, t), arr, env), ExecXADD(d, arr, env), t)
  {
    if XADDProblem(arr).None? { AppendUnseen(d, t, Arg(arr, 1), Arg(arr, 2), StringsFrom(arr, 3), env); }
  }

  lemma LPOPCase(d: State, t: Queues, conn: Option<Conn>, arr: Command, env: Env)
    ensures Unseen(ExecLPOP(WithQueues(d, t), arr, env), ExecLPOP(d, arr, env), t)
  {
    if |arr| >= 2 && (|arr| == 3 ==> arr[2].Str?) {
      LPopUnseen(d, t, Arg(arr, 1), if |arr| == 3 then Strconv.Atoi(Arg(arr, 2)).ValueIgnoringError() else 1, env.now);
    }
  }

  lemma RPOPCase(d: State, t: Queues, conn: Option<Conn>, arr: Command, env: Env)
    ensures Unseen(ExecRPOP(WithQueues(d, t), arr, env), ExecRPOP(d, arr, env), t)
  {
    RPopUnseen(d, t, Arg(arr, 1), env.now);
  }

  lemma GETCase(d: State, t: Queues, conn: Option<Conn>, arr: Command, env: Env)
    ensures Unseen(ExecGET(WithQueues(d, t), arr, env), ExecGET(d, arr, env), t)
  {
    GetUnseen(d, t, Arg(arr, 1), env.now);
  }

  lemma SETCase(d: State, t: Queues, conn: Option<Conn>, arr: Command, env: Env)
    ensures Unseen(ExecSET(WithQueues(d, t), arr, env), ExecSET(d, arr, env), t)
  {
    if |arr| >= 3 {
      var key, value := Arg(arr, 1), Text(Arg(arr, 2));
      SetValueUnseen(d, t, key, value);
      if ParseTTL(arr).Some? {
        SetExpiryUnseen(SetValue(d, key, value), t, key, Expiry.Deadline(env.now, ParseTTL(arr).value));
      }
    }
  }

  lemma SetValueUnseen(d: State, t: Queues, key: string, value: Datum)
    ensures SetValue(WithQueues(d, t), key, value) == WithQueues(SetValue(d, key, value), t)
  {
  }

  lemma SetExpiryUnseen(d: State, t: Queues, key: string, deadline: int)
    ensures SetExpiry(WithQueues(d, t), key, deadline) == WithQueues(SetExpiry(d, key, deadline), t)
  {
  }

  lemma INCRCase(d: State, t: Queues, conn: Option<Conn>, arr: Command, env: Env)
    ensures Unseen(ExecINCR(WithQueues(d, t), arr), ExecINCR(d, arr), t)
  {
  }

  lemma ZREMCase(d: State, t: Queues, conn: Option<Conn>, arr: Command, env: Env)
    ensures Unseen(ExecZREM(WithQueues(d, t), arr), ExecZREM(d, arr), t)
  {
    if |arr| >= 3 { ZRemUnseen(d, t, Arg(arr, 1), StringsFrom(arr, 2)); }
  }

  lemma UnwatchUnseen(d: State, t: Queues, c: Conn)
    ensures Unwatch(WithQueues(d, t), c) == WithQueues(Unwatch(d, c), t)
  {
  }

  lemma UNWATCHCase(d: State, t: Queues, conn: Option<Conn>, arr: Command, env: Env)
    ensures Unseen(ExecUNWATCH(WithQueues(d, t), conn, arr), ExecUNWATCH(d, conn, arr), t)
  {
    if conn.Some? { UnwatchUnseen(d, t, conn.value); }
  }

  lemma SectionUnseen(d: State, t: Queues, s: Section)
    requires OfStore(s)
    ensures Apply(WithQueues(d, t), s) == WithQueues(Apply(d, s), t)
  {
    match s
    case DoHandOff(key, values) => HandOffUnseen(d, t, key, values, []);
    case DoZRem(key, members) => ZRemUnseen(d, t, key, members);
    case DoXAdd(key, id, fields, nowMs) => XAddUnseen(d, t, key, id, fields, nowMs);
    case DoSet(_, _) | DoSetExpiry(_, _) | DoClean(_, _) | DoLazyDelete(_) => ValueUnseen(d, t, s);
    case DoIncr(_) | DoZAdd(_, _, _) => AddUnseen(d, t, s);
    case DoLPush(_, _) | DoRPush(_, _) => PutUnseen(d, t, s);
    case DoBLPop(_, _) | DoCleanUpWaiter(_, _) | DoRegister(_, _) => QueueUnseen(d, t, s);
  }

  lemma ValueUnseen(d: State, t: Queues, s: Section)
    requires s.DoSet? || s.DoSetExpiry? || s.DoClean? || s.DoLazyDelete?
    ensures Apply(WithQueues(d, t), s) == WithQueues(Apply(d, s), t)
  {
  }

  lemma AddUnseen(d: State, t: Queues, s: Section)
    requires s.DoIncr? || s.DoZAdd?
    ensures Apply(WithQueues(d, t), s) == WithQueues(Apply(d, s), t)
  {
  }

  lemma PutUnseen(d: State, t: Queues, s: Section)
    requires s.DoLPush? || s.DoRPush?
    ensures Apply(WithQueues(d, t), s) == WithQueues(Apply(d, s), t)
  {
  }

  lemma BLPopUnseen(d: State, t: Queues, key: string, ch: Chan)
    ensures BLPop(WithQueues(d, t), key, ch).0 == WithQueues(BLPop(d, key, ch).0, t)
  {
    assert ListAt(WithQueues(d, t), key) == ListAt(d, key);
    if ListAt(d, key) == [] { JoinUnseen(d, t, key, Waiters(d, key) + [ch]); }
  }

  lemma JoinUnseen(d: State, t: Queues, key: string, queue: seq<Chan>)
    ensures SetWaiters(WithQueues(d, t), key, queue) == WithQueues(SetWaiters(d, key, queue), t)
  {
  }

  lemma QueueUnseen(d: State, t: Queues, s: Section)
    requires s.DoBLPop? || s.DoCleanUpWaiter? || s.DoRegister?
    ensures Apply(WithQueues(d, t), s) == WithQueues(Apply(d, s), t)
  {
    match s
    case DoBLPop(key, ch) => BLPopUnseen(d, t, key, ch);
    case DoCleanUpWaiter(key, ch) => JoinUnseen(d, t, key, RemoveFirst(Waiters(d, key), ch));
    case DoRegister(key, ch) => JoinUnseen(d, t, key, Waiters(d, key) + [ch]);
  }

  lemma {:induction false} RunUnseen(d: State, t: Queues, run: seq<StoreSection>)
    ensures Run(WithQueues(d, t), run) == WithQueues(Run(d, run), t)
    decreases |run|
  {
    if run != [] {
      SectionUnseen(d, t, run[0]);
      RunUnseen(Apply(d, run[0]), t, run[1..]);
    }
  }

  lemma LeftOutUnseen(d: State, t: Queues, conn: Option<Conn>, arr: Command, env: Env)
    ensures Unseen(ExecLeftOut(WithQueues(d, t), conn, arr, env), ExecLeftOut(d, conn, arr, env), t)
  {
    assert WithQueues(d, t).(transactions := map[]) == d.(transactions := map[]);
    RunUnseen(d, t, LeftOutOf(d, conn, arr, env).run);
  }

  predicate Inert(kind: Kind) {
    match kind
    case Nameless | Unknown | MULTI | EXEC | DISCARD | WATCH | QUIT => true
    case _ => false
  }

  lemma InertCase(d: State, t: Queues, conn: Option<Conn>, arr: Command, env: Env)
    requires Inert(KindOf(arr))
    ensures Unseen(Data(WithQueues(d, t), conn, arr, env), Data(d, conn, arr, env), t)
  {
  }

  /** A data command leaves the queues alone. */
  lemma DataKeepsQueues(d: State, conn: Option<Conn>, arr: Command, env: Env)
    ensures Data(d, conn, arr, env).d.transactions == d.transactions
  {
    DataUnseen(d, d.transactions, conn, arr, env);
    assert WithQueues(d, d.transactions) == d;
  }

  lemma {:induction false} ExecQueueUnseen(d: State, t: Queues, c: Conn, queue: seq<Command>, env: Env)
    ensures Unseen(ExecQueue(WithQueues(d, t), c, queue, env), ExecQueue(d, c, queue, env), t)
    ensures ExecQueue(d, c, queue, env).d.transactions == d.transactions
    decreases |queue|
  {
    if queue != [] {
      DataUnseen(d, t, Some(c), queue[0], env);
      DataKeepsQueues(d, Some(c), queue[0], env);
      ExecQueueUnseen(Data(d, Some(c), queue[0], env).d, t, c, queue[1..], Next(env));
    }
  }

  lemma {:induction false} WatchUnseen(d: State, t: Queues, c: Conn, keys: seq<string>)
    ensures Watch(WithQueues(d, t), c, keys) == WithQueues(Watch(d, c, keys), t)
    ensures Watch(d, c, keys).transactions == d.transactions
    decreases |keys|
  {
    if keys != [] {
      WatchUnseen(d.(watchedKeys := d.watchedKeys[keys[0] := Watchers(d, keys[0]) + {c}]), t, c, keys[1..]);
    }
  }

  // ---- A pending transaction and the other clients ------------------------------------------

  /** The state with a transaction of c open. */
  function Pend(d: State, c: Conn, queue: seq<Command>): State { WithQueues(d, d.transactions[c := queue]) }

  ghost predicate Apart(with: Effect, without: Effect, c: Conn, queue: seq<Command>) {
    && with == without.(d := Pend(without.d, c, queue))
    && (c in without.d.transactions ==> false)
  }

  lemma DataApart(d: State, c: Conn, queue: seq<Command>, conn: Option<Conn>, arr: Command, env: Env)
    requires c !in d.transactions
    ensures Apart(Data(Pend(d, c, queue), conn, arr, env), Data(d, conn, arr, env), c, queue)
  {
    DataUnseen(d, d.transactions[c := queue], conn, arr, env);
    DataKeepsQueues(d, conn, arr, env);
  }

  lemma EXECApart(d: State, c: Conn, queue: seq<Command>, c': Conn, arr: Command, env: Env)
    requires c !in d.transactions && c' != c
    ensures Apart(ExecEXEC(Pend(d, c, queue), c', arr, env), ExecEXEC(d, c', arr, env), c, queue)
  {
    ClearTxApart(d, c, queue, c');
    if c' in d.transactions {
      var d1 := Unwatch(ClearTx(d, c'), c');
      UnwatchUnseen(ClearTx(d, c'), d1.transactions[c := queue], c');
      ExecQueueUnseen(d1, d1.transactions[c := queue], c', d.transactions[c'], env);
    }
  }

  lemma ClearTxApart(d: State, c: Conn, queue: seq<Command>, c': Conn)
    requires c' != c
    ensures ClearTx(Pend(d, c, queue), c') == Pend(ClearTx(d, c'), c, queue)
  {
    assert d.transactions[c := queue] - {c'} == (d.transactions - {c'})[c := queue];
  }

  lemma StartTxApart(d: State, c: Conn, queue: seq<Command>, c': Conn)
    requires c !in d.transactions && c' != c
    ensures StartTx(Pend(d, c, queue), c') == (Pend(StartTx(d, c').0, c, queue), StartTx(d, c').1)
    ensures c !in StartTx(d, c').0.transactions
  {
    assert d.transactions[c := queue][c' := []] == d.transactions[c' := []][c := queue];
  }

  lemma MULTIApart(d: State, c: Conn, queue: seq<Command>, c': Conn, arr: Command)
    requires c !in d.transactions && c' != c
    ensures Apart(ExecMULTI(Pend(d, c, queue), c', arr), ExecMULTI(d, c', arr), c, queue)
  {
    StartTxApart(d, c, queue, c');
  }

  lemma LeaveApart(d: State, c: Conn, queue: seq<Command>, c': Conn)
    requires c !in d.transactions && c' != c
    ensures Unwatch(ClearTx(Pend(d, c, queue), c'), c') == Pend(Unwatch(ClearTx(d, c'), c'), c, queue)
    ensures c !in Unwatch(ClearTx(d, c'), c').transactions
  {
    ClearTxApart(d, c, queue, c');
    UnwatchUnseen(ClearTx(d, c'), ClearTx(d, c').transactions[c := queue], c');
  }

  lemma DISCARDApart(d: State, c: Conn, queue: seq<Command>, c': Conn, arr: Command)
    requires c !in d.transactions && c' != c
    ensures Apart(ExecDISCARD(Pend(d, c, queue), c', arr), ExecDISCARD(d, c', arr), c, queue)
  {
    LeaveApart(d, c, queue, c');
  }

  lemma WATCHApart(d: State, c: Conn, queue: seq<Command>, c': Conn, arr: Command)
    requires c !in d.transactions && c' != c
    ensures Apart(ExecWATCH(Pend(d, c, queue), c', arr), ExecWATCH(d, c', arr), c, queue)
  {
    if |arr| >= 2 { WatchUnseen(d, d.transactions[c := queue], c', StringsFrom(arr, 1)); }
  }

  lemma QueueApart(d: State, c: Conn, queue: seq<Command>, c': Conn, arr: Command)
    requires c !in d.transactions && c' != c && c' in d.transactions
    ensures QueueCommand(Pend(d, c, queue), c', arr) == Pend(QueueCommand(d, c', arr), c, queue)
    ensures c !in QueueCommand(d, c', arr).transactions
  {
    var q := d.transactions[c'] + [arr];
    assert d.transactions[c := queue][c' := q] == d.transactions[c' := q][c := queue];
  }

  lemma ControlApart(d: State, c: Conn, queue: seq<Command>, c': Conn, arr: Command, env: Env)
    requires c !in d.transactions && c' != c && IsControl(KindOf(arr))
    ensures Apart(Control(Pend(d, c, queue), c', arr, env), Control(d, c', arr, env), c, queue)
  {
    match KindOf(arr)
    case EXEC => EXECApart(d, c, queue, c', arr, env);
    case MULTI => MULTIApart(d, c, queue, c', arr);
    case DISCARD => DISCARDApart(d, c, queue, c', arr);
    case WATCH => WATCHApart(d, c, queue, c', arr);
  }

  /** A step of anybody else neither sees nor touches the pending transaction. */
  lemma OthersApart(d: State, c: Conn, queue: seq<Command>, call: Call)
    requires c !in d.transactions && call.conn != Some(c)
    ensures Apart(Serve(Pend(d, c, queue), call), Serve(d, call), c, queue)
  {
    var kind := KindOf(call.arr);
    if call.conn.Some? && IsControl(kind) {
      ControlApart(d, c, queue, call.conn.value, call.arr, call.env);
    } else if call.conn.Some? && call.conn.value in d.transactions && !kind.Nameless? && !kind.QUIT? {
      QueueApart(d, c, queue, call.conn.value, call.arr);
    } else {
      DataApart(d, c, queue, call.conn, call.arr, call.env);
    }
  }

  // ---- Deferral -------------------------------------------------------------------------------

  predicate Queueable(arr: Command) { !KindOf(arr).Nameless? && !PassesGate(KindOf(arr)) }

  function Others(calls: seq<Call>, c: Conn): seq<Call> {
    if calls == [] then []
    else (if calls[0].conn == Some(c) then [] else [calls[0]]) + Others(calls[1..], c)
  }

  /** The commands of c among the calls that a transaction queues. */
  function Mine(calls: seq<Call>, c: Conn): seq<Command> {
    if calls == [] then []
    else (if calls[0].conn == Some(c) && Queueable(calls[0].arr) then [calls[0].arr] else []) + Mine(calls[1..], c)
  }

  predicate Bare(call: Call, c: Conn, kind: Kind) {
    call.conn == Some(c) && |call.arr| == 1 && KindOf(call.arr) == kind
  }

  /** EXEC and DISCARD without arguments end the transaction of their client. */
  predicate Ends(call: Call, c: Conn) { Bare(call, c, EXEC) || Bare(call, c, DISCARD) }

  predicate StaysOpen(calls: seq<Call>, c: Conn) { forall i :: 0 <= i < |calls| ==> !Ends(calls[i], c) }

  /** The other commands that pass the gate, and arrays without a name, do nothing in a
      transaction. */
  lemma OwnIsIgnored(d: State, c: Conn, queue: seq<Command>, call: Call)
    requires call.conn == Some(c) && !Queueable(call.arr) && !Ends(call, c)
    ensures var e := Serve(Pend(d, c, queue), call);
            e == Effect(Pend(d, c, queue), [], e.replies)
  {
    if IsControl(KindOf(call.arr)) { ControlIgnored(d, c, queue, call.arr, call.env); }
  }

  predicate Ignored(d: State, e: Effect) { e.d == d && e.persisted == [] }

  lemma ControlIgnored(d: State, c: Conn, queue: seq<Command>, arr: Command, env: Env)
    requires IsControl(KindOf(arr)) && (|arr| == 1 ==> !KindOf(arr).EXEC? && !KindOf(arr).DISCARD?)
    ensures Ignored(Pend(d, c, queue), Control(Pend(d, c, queue), c, arr, env))
  {
    match KindOf(arr)
    case MULTI => MULTIIgnored(d, c, queue, arr);
    case WATCH => WATCHIgnored(d, c, queue, arr);
    case EXEC | DISCARD => EndIgnored(d, c, queue, arr, env);
  }

  lemma MULTIIgnored(d: State, c: Conn, queue: seq<Command>, arr: Command)
    ensures Ignored(Pend(d, c, queue), ExecMULTI(Pend(d, c, queue), c, arr))
  {
  }

  lemma WATCHIgnored(d: State, c: Conn, queue: seq<Command>, arr: Command)
    ensures Ignored(Pend(d, c, queue), ExecWATCH(Pend(d, c, queue), c, arr))
  {
  }

  lemma EndIgnored(d: State, c: Conn, queue: seq<Command>, arr: Command, env: Env)
    requires |arr| != 1
    ensures Ignored(Pend(d, c, queue), ExecEXEC(Pend(d, c, queue), c, arr, env))
    ensures Ignored(Pend(d, c, queue), ExecDISCARD(Pend(d, c, queue), c, arr))
  {
  }

  lemma OwnIsQueued(d: State, c: Conn, queue: seq<Command>, call: Call)
    requires call.conn == Some(c) && Queueable(call.arr)
    ensures Serve(Pend(d, c, queue), call) == Only(Pend(d, c, queue + [call.arr]), Queued)
  {
    assert d.transactions[c := queue][c := queue + [call.arr]] == d.transactions[c := queue + [call.arr]];
  }

  lemma ServeFirst(d: State, first: Effect, calls: seq<Call>)
    requires calls != [] && Serve(d, calls[0]) == first
    ensures ServeAll(d, calls) == ServeAll(first.d, calls[1..])
    ensures Persisted(d, calls) == first.persisted + Persisted(first.d, calls[1..])
    ensures Answers(d, calls) == first.replies + Answers(first.d, calls[1..])
  {
  }

  /** The queue after a call of its client. */
  function Queuing(queue: seq<Command>, arr: Command): seq<Command> {
    if Queueable(arr) then queue + [arr] else queue
  }

  lemma OwnStep(d: State, c: Conn, queue: seq<Command>, call: Call)
    requires call.conn == Some(c) && !Ends(call, c)
    ensures var e := Serve(Pend(d, c, queue), call);
            e == Effect(Pend(d, c, Queuing(queue, call.arr)), [], e.replies)
  {
    if Queueable(call.arr) { OwnIsQueued(d, c, queue, call); } else { OwnIsIgnored(d, c, queue, call); }
  }

  lemma OwnFirst(d: State, c: Conn, queue: seq<Command>, calls: seq<Call>)
    requires calls != [] && calls[0].conn == Some(c) && !Ends(calls[0], c)
    ensures ServeAll(Pend(d, c, queue), calls) == ServeAll(Pend(d, c, Queuing(queue, calls[0].arr)), calls[1..])
    ensures Persisted(Pend(d, c, queue), calls) == Persisted(Pend(d, c, Queuing(queue, calls[0].arr)), calls[1..])
  {
    OwnStep(d, c, queue, calls[0]);
    ServeFirst(Pend(d, c, queue), Serve(Pend(d, c, queue), calls[0]), calls);
  }

  lemma MineFirst(queue: seq<Command>, calls: seq<Call>, c: Conn)
    requires calls != [] && calls[0].conn == Some(c)
    ensures queue + Mine(calls, c) == Queuing(queue, calls[0].arr) + Mine(calls[1..], c)
    ensures Others(calls, c) == Others(calls[1..], c)
  {
    var rest := Mine(calls[1..], c);
    if Queueable(calls[0].arr) { Regroup(queue, [calls[0].arr], rest); } else { assert [] + rest == rest; }
  }

  lemma Regroup<T>(a: seq<T>, b: seq<T>, c: seq<T>)
    ensures a + (b + c) == a + b + c
  {
  }

  lemma OthersTail(calls: seq<Call>, c: Conn)
    requires calls != [] && calls[0].conn != Some(c)
    ensures Mine(calls, c) == Mine(calls[1..], c)
    ensures var o := Others(calls, c); o != [] && o[0] == calls[0] && o[1..] == Others(calls[1..], c)
  {
  }

  /** While a transaction is open the server evolves exactly as if its client were silent, and
      the queue collects its commands in order. */
  lemma {:induction false} Deferred(d: State, c: Conn, queue: seq<Command>, calls: seq<Call>)
    requires c !in d.transactions && StaysOpen(calls, c)
    ensures ServeAll(Pend(d, c, queue), calls) == Pend(ServeAll(d, Others(calls, c)), c, queue + Mine(calls, c))
    ensures Persisted(Pend(d, c, queue), calls) == Persisted(d, Others(calls, c))
    ensures c !in ServeAll(d, Others(calls, c)).transactions
    decreases |calls|
  {
    if calls == [] {
      assert queue + [] == queue;
    } else if calls[0].conn == Some(c) {
      DeferMine(d, c, queue, calls);
    } else {
      DeferOthers(d, c, queue, calls);
    }
  }

  lemma {:induction false} DeferMine(d: State, c: Conn, queue: seq<Command>, calls: seq<Call>)
    requires calls != [] && calls[0].conn == Some(c) && c !in d.transactions && StaysOpen(calls, c)
    ensures ServeAll(Pend(d, c, queue), calls) == Pend(ServeAll(d, Others(calls, c)), c, queue + Mine(calls, c))
    ensures Persisted(Pend(d, c, queue), calls) == Persisted(d, Others(calls, c))
    ensures c !in ServeAll(d, Others(calls, c)).transactions
    decreases |calls|, 0
  {
    OwnFirst(d, c, queue, calls);
    MineFirst(queue, calls, c);
    Deferred(d, c, Queuing(queue, calls[0].arr), calls[1..]);
  }

  lemma {:induction false} DeferOthers(d: State, c: Conn, queue: seq<Command>, calls: seq<Call>)
    requires calls != [] && calls[0].conn != Some(c) && c !in d.transactions && StaysOpen(calls, c)
    ensures ServeAll(Pend(d, c, queue), calls) == Pend(ServeAll(d, Others(calls, c)), c, queue + Mine(calls, c))
    ensures Persisted(Pend(d, c, queue), calls) == Persisted(d, Others(calls, c))
    ensures c !in ServeAll(d, Others(calls, c)).transactions
    decreases |calls|, 0
  {
    OthersApart(d, c, queue, calls[0]);
    var e := Serve(d, calls[0]);
    OthersTail(calls, c);
    ServeFirst(d, e, Others(calls, c));
    ServeFirst(Pend(d, c, queue), e.(d := Pend(e.d, c, queue)), calls);
    Deferred(e.d, c, queue, calls[1..]);
  }

  // ---- EXEC and DISCARD -------------------------------------------------------------------------

  /** The same commands issued one by one, each at its own time. */
  function AsCalls(c: Conn, queue: seq<Command>, env: Env): (calls: seq<Call>)
    ensures |calls| == |queue|
    decreases |queue|
  {
    if queue == [] then [] else [Call(Some(c), queue[0], env)] + AsCalls(c, queue[1..], Next(env))
  }

  predicate AllQueueable(queue: seq<Command>) { forall i :: 0 <= i < |queue| ==> Queueable(queue[i]) }

  lemma MineQueueable(calls: seq<Call>, c: Conn)
    ensures AllQueueable(Mine(calls, c))
  {
    if calls != [] { MineQueueable(calls[1..], c); }
  }

  lemma PlainServe(d: State, c: Conn, arr: Command, env: Env)
    requires c !in d.transactions && Queueable(arr)
    ensures Serve(d, Call(Some(c), arr, env)) == Data(d, Some(c), arr, env)
  {
  }

  /** The loop of EXEC does what its client issuing the commands would do. */
  lemma {:induction false} ExecQueueIsCalls(d: State, c: Conn, queue: seq<Command>, env: Env)
    requires c !in d.transactions && AllQueueable(queue)
    ensures var calls := AsCalls(c, queue, env);
            ExecQueue(d, c, queue, env) == Effect(ServeAll(d, calls), Persisted(d, calls), Answers(d, calls))
    decreases |queue|
  {
    if queue != [] {
      var calls, first := AsCalls(c, queue, env), Data(d, Some(c), queue[0], env);
      assert calls[1..] == AsCalls(c, queue[1..], Next(env));
      PlainServe(d, c, queue[0], env);
      DataKeepsQueues(d, Some(c), queue[0], env);
      ServeFirst(d, first, calls);
      ExecQueueIsCalls(first.d, c, queue[1..], Next(env));
    }
  }

  /** EXEC on a pending transaction: UNWATCH, then the queue, unless a watched key changed. */
  function Committed(d: State, c: Conn, queue: seq<Command>, env: Env): Effect {
    var calls, d1 := AsCalls(c, queue, env), Unwatch(d, c);
    if c in d.dirtyClients then Only(d1, NullArray)
    else Effect(ServeAll(d1, calls), Persisted(d1, calls), [Header(|queue|)] + Answers(d1, calls))
  }

  lemma ExecCommits(d: State, c: Conn, queue: seq<Command>, call: Call)
    requires c !in d.transactions && AllQueueable(queue) && Bare(call, c, EXEC)
    ensures Serve(Pend(d, c, queue), call) == Committed(d, c, queue, call.env)
  {
    ClearPend(d, c, queue);
    ExecQueueIsCalls(Unwatch(d, c), c, queue, call.env);
  }

  lemma ClearPend(d: State, c: Conn, queue: seq<Command>)
    requires c !in d.transactions
    ensures ClearTx(Pend(d, c, queue), c) == d
  {
    assert d.transactions[c := queue] - {c} == d.transactions;
  }

  lemma MultiOpens(d: State, c: Conn, call: Call)
    requires c !in d.transactions && Bare(call, c, MULTI)
    ensures Serve(d, call) == Only(Pend(d, c, []), OK)
  {
  }

  lemma DiscardDrops(d: State, c: Conn, queue: seq<Command>, call: Call)
    requires c !in d.transactions && Bare(call, c, DISCARD)
    ensures Serve(Pend(d, c, queue), call) == Only(Unwatch(d, c), OK)
  {
    ClearPend(d, c, queue);
  }

  lemma ServeLast(d: State, calls: seq<Call>, last: Call, mid: State, effect: Effect)
    requires ServeAll(d, calls) == mid && Serve(mid, last) == effect
    ensures ServeAll(d, calls + [last]) == effect.d
    ensures Persisted(d, calls + [last]) == Persisted(d, calls) + effect.persisted
  {
    Commands.RunAppend(Serve, d, calls, [last]);
    ServeFirst(mid, effect, [last]);
    assert effect.persisted + [] == effect.persisted;
  }

  lemma OpenRun(d: State, c: Conn, multi: Call, calls: seq<Call>)
    requires c !in d.transactions && Bare(multi, c, MULTI) && StaysOpen(calls, c)
    ensures ServeAll(d, [multi] + calls) == Pend(ServeAll(d, Others(calls, c)), c, Mine(calls, c))
    ensures Persisted(d, [multi] + calls) == Persisted(d, Others(calls, c))
    ensures c !in ServeAll(d, Others(calls, c)).transactions
  {
    MultiOpens(d, c, multi);
    assert ([multi] + calls)[1..] == calls && [] + Mine(calls, c) == Mine(calls, c);
    ServeFirst(d, Only(Pend(d, c, []), OK), [multi] + calls);
    Deferred(d, c, [], calls);
  }

  /** MULTI, anything up to the EXEC: exactly as if the transaction's client had been silent until the
      EXEC and then, unless a watched key had changed, issued its commands one after another;
      the log and the replicas get the same commands in the same order. */
  lemma TransactionIsDeferred(d: State, c: Conn, multi: Call, calls: seq<Call>, exec: Call)
    requires c !in d.transactions && StaysOpen(calls, c) && Bare(multi, c, MULTI) && Bare(exec, c, EXEC)
    ensures var others, before := Others(calls, c), ServeAll(d, Others(calls, c));
            var run, commit := [multi] + calls + [exec], Committed(before, c, Mine(calls, c), exec.env);
            ServeAll(d, run) == commit.d && Persisted(d, run) == Persisted(d, others) + commit.persisted
  {
    var before, queue := ServeAll(d, Others(calls, c)), Mine(calls, c);
    OpenRun(d, c, multi, calls);
    MineQueueable(calls, c);
    ExecCommits(before, c, queue, exec);
    ServeLast(d, [multi] + calls, exec, Pend(before, c, queue), Committed(before, c, queue, exec.env));
  }

  /** MULTI, anything up to the DISCARD: only the watches and the dirty flag of the client are gone. */
  lemma DiscardIsForgotten(d: State, c: Conn, multi: Call, calls: seq<Call>, discard: Call)
    requires c !in d.transactions && StaysOpen(calls, c) && Bare(multi, c, MULTI) && Bare(discard, c, DISCARD)
    ensures var others, run := Others(calls, c), [multi] + calls + [discard];
            ServeAll(d, run) == Unwatch(ServeAll(d, others), c) && Persisted(d, run) == Persisted(d, others)
  {
    var before, queue := ServeAll(d, Others(calls, c)), Mine(calls, c);
    OpenRun(d, c, multi, calls);
    DiscardDrops(before, c, queue, discard);
    ServeLast(d, [multi] + calls, discard, Pend(before, c, queue), Only(Unwatch(before, c), OK));
  }

  /** After EXEC or DISCARD the client has no queue, no watch and is not dirty. */
  lemma UnwatchClears(d: State, c: Conn, k: string)
    ensures c !in Unwatch(d, c).dirtyClients && c !in Watchers(Unwatch(d, c), k)
    ensures Unwatch(d, c) == d.(watchedKeys := Unwatch(d, c).watchedKeys, dirtyClients := d.dirtyClients - {c})
    ensures forall other :: other != c ==> (other in Watchers(Unwatch(d, c), k) <==> other in Watchers(d, k))
  {
  }
}
