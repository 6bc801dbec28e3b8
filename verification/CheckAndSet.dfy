/** Check-and-set over runs of commands: every command is a run of critical sections, so what holds
    of all interleavings of sections holds of WATCH, anything and EXEC. */
module CheckAndSet {
  import Strconv
  import opened RespStream
  import opened StreamIds
  import opened StoreModel
  import Expiry
  import opened Sections
  import opened Watching
  import opened Commands
  import opened Transactions

  // ---- The sections of a command -----------------------------------------------------------

  /** A section that neither watches nor unwatches. */
  predicate Plain(s: Section) { Allowed(s) && !s.DoWatch? && !s.DoUnwatch? }

  predicate AllPlain(run: seq<Section>) { forall i :: 0 <= i < |run| ==> Plain(run[i]) }

  /** Get deletes an expired key. */
  function GetSections(d: State, key: string, now: int): (run: seq<Section>)
    ensures AllPlain(run)
  {
    if Expired(d, key, now) then [DoLazyDelete(key)] else []
  }

  function SETSections(arr: Command, env: Env): (run: seq<Section>)
    ensures AllPlain(run)
  {
    if |arr| < 3 then []
    else
      var key, ttl := Arg(arr, 1), ParseTTL(arr);
      [DoSet(key, Text(Arg(arr, 2)))]
      + (if ttl.Some? then [DoSetExpiry(key, Expiry.Deadline(env.now, ttl.value))] else [])
  }

  /** One section for every pair before the first bad score. */
  function ZAddSections(key: string, arr: Command, i: nat, env: Env): (run: seq<Section>)
    requires i <= |arr| && (|arr| - i) % 2 == 0
    ensures AllPlain(run)
    decreases |arr| - i
  {
    if i == |arr| || env.parseFloat(Arg(arr, i)).None? then []
    else [DoZAdd(key, env.parseFloat(Arg(arr, i)).value, Arg(arr, i + 1))] + ZAddSections(key, arr, i + 2, env)
  }

  function PushSections(d: State, left: bool, key: string, values: seq<string>, now: int): (run: seq<Section>)
    ensures AllPlain(run)
  {
    var remaining := HandOff(Get(d, key, now).0, key, values, []).1;
    GetSections(d, key, now) + [DoHandOff(key, values)]
    + (if remaining == [] then [] else if left then [DoLPush(key, remaining)] else [DoRPush(key, remaining)])
  }

  predicate PushStores(arr: Command) { |arr| >= 3 && forall i :: 2 <= i < |arr| ==> arr[i].Str? }

  /** What a pop leaves in the list is stored with Set. */
  function PopSections(d: State, key: string, now: int, left: Option<seq<string>>): (run: seq<Section>)
    ensures AllPlain(run)
  {
    GetSections(d, key, now) + (if left.Some? then [DoSet(key, List(left.value))] else [])
  }

  function LPOPSections(d: State, arr: Command, env: Env): (run: seq<Section>)
    ensures AllPlain(run)
  {
    if |arr| < 2 || (|arr| == 3 && !arr[2].Str?) then []
    else
      var count := if |arr| == 3 then Strconv.Atoi(Arg(arr, 2)).ValueIgnoringError() else 1;
      PopSections(d, Arg(arr, 1), env.now, TakeFront(Get(d, Arg(arr, 1), env.now).1, count).1)
  }

  function RPOPSections(d: State, arr: Command, env: Env): (run: seq<Section>)
    ensures AllPlain(run)
  {
    if |arr| < 2 then [] else PopSections(d, Arg(arr, 1), env.now, TakeBack(Get(d, Arg(arr, 1), env.now).1).1)
  }

  function AppendSections(d: State, key: string, id: string, fields: seq<string>, env: Env): (run: seq<Section>)
    ensures AllPlain(run)
  {
    var value := Get(d, key, env.now).1;
    GetSections(d, key, env.now)
    + (if value.Some? && !value.value.Stream? then [] else [DoXAdd(key, id, fields, Millis(env))])
  }

  function DataSections(d: State, conn: Option<Conn>, arr: Command, env: Env): seq<Section> {
    match KindOf(arr)
    case SET => SETSections(arr, env)
    case GET => if |arr| < 2 then [] else GetSections(d, Arg(arr, 1), env.now)
    case INCR => if |arr| < 2 then [] else [DoIncr(Arg(arr, 1))]
    case ZADD => if |arr| < 4 || |arr| % 2 != 0 then [] else ZAddSections(Arg(arr, 1), arr, 2, env)
    case ZREM => if |arr| < 3 then [] else [DoZRem(Arg(arr, 1), StringsFrom(arr, 2))]
    case LPUSH => if PushStores(arr) then PushSections(d, true, Arg(arr, 1), StringsFrom(arr, 2), env.now) else []
    case RPUSH => if PushStores(arr) then PushSections(d, false, Arg(arr, 1), StringsFrom(arr, 2), env.now) else []
    case LPOP => LPOPSections(d, arr, env)
    case RPOP => RPOPSections(d, arr, env)
    case XADD =>
      if XADDProblem(arr).Some? then [] else AppendSections(d, Arg(arr, 1), Arg(arr, 2), StringsFrom(arr, 3), env)
    case UNWATCH => if |arr| == 1 && conn.Some? then [DoUnwatch(conn.value)] else []
    case Outside => LeftOutOf(d, conn, arr, env).run
    case _ => []
  }

  function QueueSections(d: State, c: Conn, queue: seq<Command>, env: Env): seq<Section>
    decreases |queue|
  {
    if queue == [] then []
    else
      var d1 := Data(d, Some(c), queue[0], env).d;
      DataSections(d, Some(c), queue[0], env) + QueueSections(d1, c, queue[1..], Next(env))
  }

  function EXECSections(d: State, c: Conn, arr: Command, env: Env): seq<Section> {
    if |arr| != 1 then []
    else if c !in d.transactions then [DoClearTx(c)]
    else
      [DoClearTx(c), DoUnwatch(c)]
      + (if c in d.dirtyClients then [] else QueueSections(Unwatch(ClearTx(d, c), c), c, d.transactions[c], env))
  }

  function MULTISections(c: Conn, arr: Command): seq<Section> { if |arr| == 1 then [DoStartTx(c)] else [] }

  function DISCARDSections(d: State, c: Conn, arr: Command): seq<Section> {
    if |arr| == 1 && c in d.transactions then [DoClearTx(c), DoUnwatch(c)] else []
  }

  function WATCHSections(d: State, c: Conn, arr: Command): seq<Section> {
    if |arr| < 2 || c in d.transactions then [] else [DoWatch(c, StringsFrom(arr, 1))]
  }

  function ControlSections(d: State, c: Conn, arr: Command, env: Env): seq<Section>
    requires IsControl(KindOf(arr))
  {
    match KindOf(arr)
    case MULTI => MULTISections(c, arr)
    case EXEC => EXECSections(d, c, arr, env)
    case DISCARD => DISCARDSections(d, c, arr)
    case WATCH => WATCHSections(d, c, arr)
  }

  function SectionsOf(d: State, call: Call): seq<Section> {
    var arr, env, kind := call.arr, call.env, KindOf(call.arr);
    if call.conn.None? then
      if IsControl(kind) then [] else DataSections(d, call.conn, arr, env)
    else
      var c := call.conn.value;
      if !kind.Nameless? && c in d.transactions && !PassesGate(kind) then [DoQueue(c, arr)]
      else if IsControl(kind) then ControlSections(d, c, arr, env)
      else DataSections(d, call.conn, arr, env)
  }

  // ---- Every command is the run of its sections -----------------------------------------------

  lemma RunOne(d: State, s: Section)
    ensures Run(d, [s]) == Apply(d, s)
  {
    assert [s][1..] == [];
  }

  lemma RunTwo(d: State, s: Section, t: Section)
    ensures Run(d, [s, t]) == Apply(Apply(d, s), t)
  {
    assert [s, t] == [s] + [t];
    Sections.RunAppend(d, [s], [t]);
    RunOne(d, s);
    RunOne(Apply(d, s), t);
  }

  lemma GetIsRun(d: State, key: string, now: int)
    ensures Run(d, GetSections(d, key, now)) == Get(d, key, now).0
  {
    if Expired(d, key, now) { RunOne(d, DoLazyDelete(key)); }
  }

  /** Get and then one more section. */
  lemma GetThen(d: State, key: string, now: int, s: Section)
    ensures Run(d, GetSections(d, key, now) + [s]) == Apply(Get(d, key, now).0, s)
  {
    GetIsRun(d, key, now);
    Sections.RunAppend(d, GetSections(d, key, now), [s]);
    RunOne(Get(d, key, now).0, s);
  }

  lemma SETIsRun(d: State, arr: Command, env: Env)
    ensures Run(d, SETSections(arr, env)) == ExecSET(d, arr, env).d
  {
    if |arr| >= 3 {
      var key, ttl := Arg(arr, 1), ParseTTL(arr);
      var s := DoSet(key, Text(Arg(arr, 2)));
      RunOne(d, s);
      if ttl.Some? {
        var t := DoSetExpiry(key, Expiry.Deadline(env.now, ttl.value));
        RunTwo(d, s, t);
        assert [s] + [t] == [s, t];
      }
    }
  }

  lemma {:induction false} ZAddIsRun(d: State, key: string, arr: Command, i: nat, env: Env, count: int)
    requires i <= |arr| && (|arr| - i) % 2 == 0
    ensures Run(d, ZAddSections(key, arr, i, env)) == ZAddFrom(d, key, arr, i, env, count).0
    decreases |arr| - i
  {
    if i < |arr| && env.parseFloat(Arg(arr, i)).Some? {
      var s := DoZAdd(key, env.parseFloat(Arg(arr, i)).value, Arg(arr, i + 1));
      var rest := ZAddSections(key, arr, i + 2, env);
      var (d1, added) := ZAdd(d, key, s.score, s.member);
      ZAddIsRun(d1, key, arr, i + 2, env, count + added);
      Sections.RunAppend(d, [s], rest);
      RunOne(d, s);
    }
  }

  lemma PushIsRun(d: State, left: bool, key: string, values: seq<string>, now: int)
    ensures Run(d, PushSections(d, left, key, values, now)) == PushTo(d, left, key, values, now).0
  {
    var remaining := HandOff(Get(d, key, now).0, key, values, []).1;
    var first := GetSections(d, key, now) + [DoHandOff(key, values)];
    HandOffIsRun(d, key, values, now);
    if remaining == [] {
      assert first + [] == first;
    } else {
      RunThen(d, first, if left then DoLPush(key, remaining) else DoRPush(key, remaining));
    }
  }

  lemma HandOffIsRun(d: State, key: string, values: seq<string>, now: int)
    ensures Run(d, GetSections(d, key, now) + [DoHandOff(key, values)])
         == HandOff(Get(d, key, now).0, key, values, []).0
  {
    GetThen(d, key, now, DoHandOff(key, values));
  }

  lemma RunThen(d: State, run: seq<Section>, s: Section)
    ensures Run(d, run + [s]) == Apply(Run(d, run), s)
  {
    Sections.RunAppend(d, run, [s]);
    RunOne(Run(d, run), s);
  }

  lemma PopIsRun(d: State, key: string, now: int, left: Option<seq<string>>)
    ensures Run(d, PopSections(d, key, now, left))
         == var d' := Get(d, key, now).0; if left.Some? then SetValue(d', key, List(left.value)) else d'
  {
    GetIsRun(d, key, now);
    if left.Some? {
      GetThen(d, key, now, DoSet(key, List(left.value)));
    } else {
      assert GetSections(d, key, now) + [] == GetSections(d, key, now);
    }
  }

  lemma AppendIsRun(d: State, key: string, id: string, fields: seq<string>, env: Env)
    ensures Run(d, AppendSections(d, key, id, fields, env)) == AppendTo(d, key, id, fields, env).d
  {
    var value := Get(d, key, env.now).1;
    GetIsRun(d, key, env.now);
    if value.Some? && !value.value.Stream? {
      assert GetSections(d, key, env.now) + [] == GetSections(d, key, env.now);
    } else {
      GetThen(d, key, env.now, DoXAdd(key, id, fields, Millis(env)));
    }
  }

  lemma LPOPIsRun(d: State, arr: Command, env: Env)
    ensures Run(d, LPOPSections(d, arr, env)) == ExecLPOP(d, arr, env).d
  {
    if |arr| >= 2 && !(|arr| == 3 && !arr[2].Str?) {
      var count := if |arr| == 3 then Strconv.Atoi(Arg(arr, 2)).ValueIgnoringError() else 1;
      PopIsRun(d, Arg(arr, 1), env.now, TakeFront(Get(d, Arg(arr, 1), env.now).1, count).1);
    }
  }

  lemma RPOPIsRun(d: State, arr: Command, env: Env)
    ensures Run(d, RPOPSections(d, arr, env)) == ExecRPOP(d, arr, env).d
  {
    if |arr| >= 2 { PopIsRun(d, Arg(arr, 1), env.now, TakeBack(Get(d, Arg(arr, 1), env.now).1).1); }
  }

  lemma PUSHIsRun(d: State, client: bool, left: bool, arr: Command, env: Env)
    ensures Run(d, if PushStores(arr) then PushSections(d, left, Arg(arr, 1), StringsFrom(arr, 2), env.now) else [])
         == ExecPush(d, client, left, arr, env).d
  {
    if PushStores(arr) { PushIsRun(d, left, Arg(arr, 1), StringsFrom(arr, 2), env.now); }
  }

  lemma INCRIsRun(d: State, arr: Command)
    ensures Run(d, if |arr| < 2 then [] else [DoIncr(Arg(arr, 1))]) == ExecINCR(d, arr).d
  {
    RunOne(d, DoIncr(Arg(arr, 1)));
  }

  lemma ZREMIsRun(d: State, arr: Command)
    ensures Run(d, if |arr| < 3 then [] else [DoZRem(Arg(arr, 1), StringsFrom(arr, 2))]) == ExecZREM(d, arr).d
  {
    if |arr| >= 3 { RunOne(d, DoZRem(Arg(arr, 1), StringsFrom(arr, 2))); }
  }

  lemma UNWATCHIsRun(d: State, conn: Option<Conn>, arr: Command)
    ensures Run(d, if |arr| == 1 && conn.Some? then [DoUnwatch(conn.value)] else []) == ExecUNWATCH(d, conn, arr).d
  {
    if conn.Some? { RunOne(d, DoUnwatch(conn.value)); }
  }

  lemma ZADDIsRun(d: State, arr: Command, env: Env)
    ensures Run(d, if |arr| < 4 || |arr| % 2 != 0 then [] else ZAddSections(Arg(arr, 1), arr, 2, env))
         == ExecZADD(d, arr, env).d
  {
    if |arr| >= 4 && |arr| % 2 == 0 { ZAddIsRun(d, Arg(arr, 1), arr, 2, env, 0); }
  }

  lemma XADDIsRun(d: State, arr: Command, env: Env)
    ensures Run(d, if XADDProblem(arr).Some? then []
                   else AppendSections(d, Arg(arr, 1), Arg(arr, 2), StringsFrom(arr, 3), env))
         == ExecXADD(d, arr, env).d
  {
    if XADDProblem(arr).None? { AppendIsRun(d, Arg(arr, 1), Arg(arr, 2), StringsFrom(arr, 3), env); }
  }

  lemma TextCase(d: State, conn: Option<Conn>, arr: Command, env: Env)
    requires var kind := KindOf(arr); kind.SET? || kind.GET?
    ensures Run(d, DataSections(d, conn, arr, env)) == Data(d, conn, arr, env).d
  {
    match KindOf(arr)
    case SET => SETIsRun(d, arr, env);
    case GET => GetIsRun(d, Arg(arr, 1), env.now);
  }

  lemma OneSectionCase(d: State, conn: Option<Conn>, arr: Command, env: Env)
    requires var kind := KindOf(arr); kind.INCR? || kind.ZREM? || kind.UNWATCH?
    ensures Run(d, DataSections(d, conn, arr, env)) == Data(d, conn, arr, env).d
  {
    match KindOf(arr)
    case INCR => INCRIsRun(d, arr);
    case ZREM => ZREMIsRun(d, arr);
    case UNWATCH => UNWATCHIsRun(d, conn, arr);
  }

  lemma AddCase(d: State, conn: Option<Conn>, arr: Command, env: Env)
    requires var kind := KindOf(arr); kind.ZADD? || kind.XADD?
    ensures Run(d, DataSections(d, conn, arr, env)) == Data(d, conn, arr, env).d
  {
    match KindOf(arr)
    case ZADD => ZADDIsRun(d, arr, env);
    case XADD => XADDIsRun(d, arr, env);
  }

  lemma ListCase(d: State, conn: Option<Conn>, arr: Command, env: Env)
    requires var kind := KindOf(arr); kind.LPUSH? || kind.RPUSH? || kind.LPOP? || kind.RPOP?
    ensures Run(d, DataSections(d, conn, arr, env)) == Data(d, conn, arr, env).d
  {
    match KindOf(arr)
    case LPUSH => PUSHIsRun(d, conn.Some?, true, arr, env);
    case RPUSH => PUSHIsRun(d, conn.Some?, false, arr, env);
    case LPOP => LPOPIsRun(d, arr, env);
    case RPOP => RPOPIsRun(d, arr, env);
  }

  lemma LeftOutCase(d: State, conn: Option<Conn>, arr: Command, env: Env)
    requires KindOf(arr).Outside?
    ensures Run(d, DataSections(d, conn, arr, env)) == Data(d, conn, arr, env).d
  {
  }

  lemma DataIsRun(d: State, conn: Option<Conn>, arr: Command, env: Env)
    ensures Run(d, DataSections(d, conn, arr, env)) == Data(d, conn, arr, env).d
  {
    match KindOf(arr)
    case SET | GET => TextCase(d, conn, arr, env);
    case INCR | ZREM | UNWATCH => OneSectionCase(d, conn, arr, env);
    case ZADD | XADD => AddCase(d, conn, arr, env);
    case LPUSH | RPUSH | LPOP | RPOP => ListCase(d, conn, arr, env);
    case Outside => LeftOutCase(d, conn, arr, env);
    case _ =>
  }

  lemma {:induction false} QueueIsRun(d: State, c: Conn, queue: seq<Command>, env: Env)
    ensures Run(d, QueueSections(d, c, queue, env)) == ExecQueue(d, c, queue, env).d
    decreases |queue|
  {
    if queue != [] {
      var d1 := Data(d, Some(c), queue[0], env).d;
      DataIsRun(d, Some(c), queue[0], env);
      QueueIsRun(d1, c, queue[1..], Next(env));
      Sections.RunAppend(d, DataSections(d, Some(c), queue[0], env), QueueSections(d1, c, queue[1..], Next(env)));
    }
  }

  lemma EXECIsRun(d: State, c: Conn, arr: Command, env: Env)
    ensures Run(d, EXECSections(d, c, arr, env)) == ExecEXEC(d, c, arr, env).d
  {
    if |arr| == 1 {
      RunOne(d, DoClearTx(c));
      RunTwo(d, DoClearTx(c), DoUnwatch(c));
      if c in d.transactions {
        var gone, d1 := [DoClearTx(c), DoUnwatch(c)], Unwatch(ClearTx(d, c), c);
        if c in d.dirtyClients {
          assert gone + [] == gone;
        } else {
          QueueIsRun(d1, c, d.transactions[c], env);
          Sections.RunAppend(d, gone, QueueSections(d1, c, d.transactions[c], env));
        }
      }
    }
  }

  lemma MULTIIsRun(d: State, c: Conn, arr: Command)
    ensures Run(d, MULTISections(c, arr)) == ExecMULTI(d, c, arr).d
  {
    RunOne(d, DoStartTx(c));
  }

  lemma DISCARDIsRun(d: State, c: Conn, arr: Command)
    ensures Run(d, DISCARDSections(d, c, arr)) == ExecDISCARD(d, c, arr).d
  {
    RunTwo(d, DoClearTx(c), DoUnwatch(c));
  }

  lemma WATCHIsRun(d: State, c: Conn, arr: Command)
    ensures Run(d, WATCHSections(d, c, arr)) == ExecWATCH(d, c, arr).d
  {
    if |arr| >= 2 { RunOne(d, DoWatch(c, StringsFrom(arr, 1))); }
  }

  lemma ControlIsRun(d: State, c: Conn, arr: Command, env: Env)
    requires IsControl(KindOf(arr))
    ensures Run(d, ControlSections(d, c, arr, env)) == Control(d, c, arr, env).d
  {
    match KindOf(arr)
    case EXEC => EXECIsRun(d, c, arr, env);
    case DISCARD => DISCARDIsRun(d, c, arr);
    case MULTI => MULTIIsRun(d, c, arr);
    case WATCH => WATCHIsRun(d, c, arr);
  }

  /** Every command does to the store what its critical sections do, one after another. */
  lemma CallIsRun(d: State, call: Call)
    ensures Run(d, SectionsOf(d, call)) == Serve(d, call).d
  {
    var kind := KindOf(call.arr);
    if call.conn.Some? && IsControl(kind) {
      ControlIsRun(d, call.conn.value, call.arr, call.env);
    } else if call.conn.Some? && !kind.Nameless? && !kind.QUIT? && call.conn.value in d.transactions {
      RunOne(d, DoQueue(call.conn.value, call.arr));
    } else {
      DataIsRun(d, call.conn, call.arr, call.env);
    }
  }

  // ---- Who gives up its watches ---------------------------------------------------------------

  /** The commands that end a client's watches, where they are executed. */
  predicate GivesUp(d: State, call: Call, c: Conn) {
    && call.conn == Some(c) && |call.arr| == 1
    && match KindOf(call.arr)
       case EXEC | DISCARD => c in d.transactions
       case UNWATCH => c !in d.transactions
       case _ => false
  }

  predicate AllAllowedBut(run: seq<Section>, c: Conn) {
    forall i :: 0 <= i < |run| ==> Allowed(run[i]) && (run[i].DoUnwatch? ==> run[i].c == c)
  }

  lemma DataPlain(d: State, conn: Option<Conn>, arr: Command, env: Env)
    requires !KindOf(arr).UNWATCH?
    ensures AllPlain(DataSections(d, conn, arr, env))
  {
  }

  lemma DataAllowed(d: State, conn: Option<Conn>, arr: Command, env: Env, c: Conn)
    requires conn.Some? ==> c == conn.value
    ensures AllAllowedBut(DataSections(d, conn, arr, env), c)
    ensures !KindOf(arr).UNWATCH? ==> AllPlain(DataSections(d, conn, arr, env))
  {
    if !KindOf(arr).UNWATCH? { DataPlain(d, conn, arr, env); }
  }

  lemma {:induction false} QueueAllowed(d: State, c: Conn, queue: seq<Command>, env: Env)
    ensures AllAllowedBut(QueueSections(d, c, queue, env), c)
    decreases |queue|
  {
    if queue != [] {
      DataAllowed(d, Some(c), queue[0], env, c);
      QueueAllowed(Data(d, Some(c), queue[0], env).d, c, queue[1..], Next(env));
    }
  }

  lemma EXECUnwatches(d: State, own: Conn, arr: Command, env: Env, c: Conn)
    ensures var run := EXECSections(d, own, arr, env);
            AllAllowed(run) && (DoUnwatch(c) in run <==> |arr| == 1 && own in d.transactions && c == own)
  {
    if |arr| == 1 && own in d.transactions {
      QueueAllowed(Unwatch(ClearTx(d, own), own), own, d.transactions[own], env);
      assert EXECSections(d, own, arr, env)[1] == DoUnwatch(own);
    }
  }

  /** The sections of a command contain UNWATCH for a client exactly when it is a command of that
      client that gives up its watches. */
  lemma UnwatchesExactly(d: State, call: Call, c: Conn)
    ensures AllAllowed(SectionsOf(d, call))
    ensures DoUnwatch(c) in SectionsOf(d, call) <==> GivesUp(d, call, c)
  {
    var own := if call.conn.Some? then call.conn.value else c;
    DataAllowed(d, call.conn, call.arr, call.env, own);
    if call.conn.Some? && KindOf(call.arr).EXEC? { EXECUnwatches(d, own, call.arr, call.env, c); }
  }

  // ---- Runs of commands among sections ----------------------------------------------------------

  /** A command as one step, or one section, such as a cleanup. */
  datatype Act = Serves(call: Call) | Alone(s: Section)

  function After(d: State, act: Act): State {
    match act
    case Serves(call) => Serve(d, call).d
    case Alone(s) => Apply(d, s)
  }

  function ActSections(d: State, act: Act): seq<Section> {
    match act
    case Serves(call) => SectionsOf(d, call)
    case Alone(s) => [s]
  }

  function RunActs(d: State, acts: seq<Act>): State
    decreases |acts|
  {
    if acts == [] then d else RunActs(After(d, acts[0]), acts[1..])
  }

  function AllSections(d: State, acts: seq<Act>): seq<Section>
    decreases |acts|
  {
    if acts == [] then [] else ActSections(d, acts[0]) + AllSections(After(d, acts[0]), acts[1..])
  }

  predicate Proper(acts: seq<Act>) { forall i :: 0 <= i < |acts| && acts[i].Alone? ==> Allowed(acts[i].s) }

  /** The client gives up no watch. */
  predicate Keeps(d: State, act: Act, c: Conn) {
    match act
    case Serves(call) => !GivesUp(d, call, c)
    case Alone(s) => s != DoUnwatch(c)
  }

  predicate AllKeep(d: State, acts: seq<Act>, c: Conn)
    decreases |acts|
  {
    acts == [] || (Keeps(d, acts[0], c) && AllKeep(After(d, acts[0]), acts[1..], c))
  }

  lemma ActIsRun(d: State, act: Act, c: Conn)
    requires act.Alone? ==> Allowed(act.s)
    ensures Run(d, ActSections(d, act)) == After(d, act) && AllAllowed(ActSections(d, act))
    ensures DoUnwatch(c) in ActSections(d, act) <==> !Keeps(d, act, c)
  {
    match act
    case Serves(call) =>
      CallIsRun(d, call);
      UnwatchesExactly(d, call, c);
    case Alone(s) => RunOne(d, s);
  }

  /** A run of commands is a run of sections, and unwatches where a command gives up. */
  lemma {:induction false} ActsAreRun(d: State, acts: seq<Act>, c: Conn)
    requires Proper(acts)
    ensures Run(d, AllSections(d, acts)) == RunActs(d, acts) && AllAllowed(AllSections(d, acts))
    ensures DoUnwatch(c) in AllSections(d, acts) <==> !AllKeep(d, acts, c)
    decreases |acts|
  {
    if acts != [] {
      var d1 := After(d, acts[0]);
      ActIsRun(d, acts[0], c);
      ActsAreRun(d1, acts[1..], c);
      Sections.RunAppend(d, ActSections(d, acts[0]), AllSections(d1, acts[1..]));
    }
  }

  // ---- The theorems -------------------------------------------------------------------------------

  /** EXEC in a transaction answers null exactly to a dirty client, and otherwise runs the queue
      on the values it finds. */
  lemma ExecAnswers(d: State, c: Conn, exec: Call)
    requires Bare(exec, c, EXEC) && c in d.transactions
    ensures Serve(d, exec).replies == [NullArray] <==> c in d.dirtyClients
    ensures var start := Unwatch(ClearTx(d, c), c);
            && start.cache == d.cache && start.expiry == d.expiry
            && (c !in d.dirtyClients ==> Serve(d, exec).d == ExecQueue(start, c, d.transactions[c], exec.env).d)
  {
    var start, queue := Unwatch(ClearTx(d, c), c), d.transactions[c];
    assert ([Header(|queue|)] + ExecQueue(start, c, queue, exec.env).replies)[0] == Header(|queue|);
  }

  predicate Watches(d: State, call: Call, c: Conn, k: string) {
    && call.conn == Some(c) && KindOf(call.arr).WATCH? && c !in d.transactions
    && |call.arr| >= 2 && k in StringsFrom(call.arr, 1)
  }

  lemma WatchServed(d: State, watch: Call, c: Conn, k: string)
    requires Watches(d, watch, c, k)
    ensures var w := Serve(d, watch).d; w.cache == d.cache && c in Watchers(w, k)
  {
    WatchFrame(d, c, StringsFrom(watch.arr, 1));
  }

  /** WATCH k, anything of anybody that does not give up the watch, EXEC: if the EXEC does not
      answer null, its queue starts on the value k had at the WATCH, if and only if k did not
      expire in between. */
  lemma CheckAndSet(d: State, watch: Call, acts: seq<Act>, exec: Call, c: Conn, k: string)
    requires NoEmptyZSet(d) && Watches(d, watch, c, k) && Proper(acts)
    requires AllKeep(Serve(d, watch).d, acts, c)
    requires Bare(exec, c, EXEC) && c in RunActs(Serve(d, watch).d, acts).transactions
    ensures var w := Serve(d, watch).d;
            var v := RunActs(w, acts);
            var start := Unwatch(ClearTx(v, c), c);
            Serve(v, exec).replies != [NullArray] ==>
              && Serve(v, exec).d == ExecQueue(start, c, v.transactions[c], exec.env).d
              && (Lookup(start.cache, k) == Lookup(d.cache, k) <==> !Expires(w, AllSections(w, acts), k))
  {
    var w := Serve(d, watch).d;
    WatchServed(d, watch, c, k);
    ActsAreRun(w, acts, c);
    ExecAnswers(RunActs(w, acts), c, exec);
    if c !in RunActs(w, acts).dirtyClients { UnchangedUnlessExpired(w, AllSections(w, acts), c, k); }
  }

  /** EXEC answers null if and only if some section of the run wrote a key after a WATCH of it by
      the client that was still in force. */
  lemma ExecNullExactly(d: State, acts: seq<Act>, exec: Call, c: Conn)
    requires NoEmptyZSet(d) && Proper(acts) && c !in d.dirtyClients && forall k :: c !in Watchers(d, k)
    requires Bare(exec, c, EXEC) && c in RunActs(d, acts).transactions
    ensures Serve(RunActs(d, acts), exec).replies == [NullArray]
       <==> exists k, i, j :: Conflict(d, AllSections(d, acts), c, k, i, j)
  {
    ActsAreRun(d, acts, c);
    ExecAnswers(RunActs(d, acts), c, exec);
    DirtyExactly(d, AllSections(d, acts), c);
  }
}
