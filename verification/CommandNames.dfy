/** Which command a name stands for, in any mixture of upper and lower case, and what a command too
    short for its kind does. */
module CommandNames {
  import opened Strconv
  import opened Resp
  import opened RespStream
  import opened StreamIds
  import opened StoreModel
  import opened Commands
  import opened Transactions

  predicate Names(arr: Command, name: string) { arr != [] && arr[0].Str? && ToUpper(arr[0].s) == name }

  /** Case does not matter: names that agree letter by letter up to case are the same. */
  predicate SameLetter(a: char, b: char) { a == b || ToUpperByte(a) == b || a == ToUpperByte(b) }

  lemma SameUpToCase(a: string, b: string)
    requires |a| == |b| && forall i :: 0 <= i < |a| ==> SameLetter(a[i], b[i])
    ensures ToUpper(a) == ToUpper(b)
  {
    assert forall i :: 0 <= i < |a| ==> ToUpper(a)[i] == ToUpperByte(a[i]) && ToUpper(b)[i] == ToUpperByte(b[i]);
  }

  /** Exactly the letters a to z change, to the letter 32 below. */
  lemma UpperIs(s: string, i: nat)
    requires i < |s|
    ensures |ToUpper(s)| == |s|
    ensures ToUpper(s)[i] == (if 'a' <= s[i] <= 'z' then (s[i] as int - 'a' as int + 'A' as int) as char else s[i])
  {
  }

  /** A client outside a transaction that sends a command of kind k by name. */
  predicate Sends(d: State, c: Conn, arr: Command, name: string) { c !in d.transactions && Names(arr, name) }

  function ServeFor(d: State, c: Conn, arr: Command, env: Env): Effect { Serve(d, Call(Some(c), arr, env)) }

  lemma ServeSET(d: State, c: Conn, arr: Command, env: Env)
    requires Sends(d, c, arr, "SET")
    ensures ServeFor(d, c, arr, env) == ExecSET(d, arr, env)
  {
    PlainServe(d, c, arr, env);
  }

  lemma ServeGET(d: State, c: Conn, arr: Command, env: Env)
    requires Sends(d, c, arr, "GET")
    ensures ServeFor(d, c, arr, env) == ExecGET(d, arr, env)
  {
    PlainServe(d, c, arr, env);
  }

  lemma ServeINCR(d: State, c: Conn, arr: Command, env: Env)
    requires Sends(d, c, arr, "INCR")
    ensures ServeFor(d, c, arr, env) == ExecINCR(d, arr)
  {
    PlainServe(d, c, arr, env);
  }

  lemma ServeZADD(d: State, c: Conn, arr: Command, env: Env)
    requires Sends(d, c, arr, "ZADD")
    ensures ServeFor(d, c, arr, env) == ExecZADD(d, arr, env)
  {
    PlainServe(d, c, arr, env);
  }

  lemma ServeZREM(d: State, c: Conn, arr: Command, env: Env)
    requires Sends(d, c, arr, "ZREM")
    ensures ServeFor(d, c, arr, env) == ExecZREM(d, arr)
  {
    PlainServe(d, c, arr, env);
  }

  lemma ServeLPUSH(d: State, c: Conn, arr: Command, env: Env)
    requires Sends(d, c, arr, "LPUSH")
    ensures ServeFor(d, c, arr, env) == ExecPush(d, true, true, arr, env)
  {
    PlainServe(d, c, arr, env);
  }

  lemma ServeRPUSH(d: State, c: Conn, arr: Command, env: Env)
    requires Sends(d, c, arr, "RPUSH")
    ensures ServeFor(d, c, arr, env) == ExecPush(d, true, false, arr, env)
  {
    PlainServe(d, c, arr, env);
  }

  lemma ServeLPOP(d: State, c: Conn, arr: Command, env: Env)
    requires Sends(d, c, arr, "LPOP")
    ensures ServeFor(d, c, arr, env) == ExecLPOP(d, arr, env)
  {
    PlainServe(d, c, arr, env);
  }

  lemma ServeRPOP(d: State, c: Conn, arr: Command, env: Env)
    requires Sends(d, c, arr, "RPOP")
    ensures ServeFor(d, c, arr, env) == ExecRPOP(d, arr, env)
  {
    PlainServe(d, c, arr, env);
  }

  lemma ServeXADD(d: State, c: Conn, arr: Command, env: Env)
    requires Sends(d, c, arr, "XADD")
    ensures ServeFor(d, c, arr, env) == ExecXADD(d, arr, env)
  {
    PlainServe(d, c, arr, env);
  }

  /** The other names. */
  lemma KindsByName(arr: Command, name: string)
    requires Names(arr, name)
    ensures name == "MULTI" ==> KindOf(arr) == MULTI
    ensures name == "EXEC" ==> KindOf(arr) == EXEC
    ensures name == "DISCARD" ==> KindOf(arr) == DISCARD
    ensures name == "WATCH" ==> KindOf(arr) == WATCH
    ensures name == "UNWATCH" ==> KindOf(arr) == UNWATCH
    ensures name == "QUIT" ==> KindOf(arr) == QUIT
  {
  }

  /** How many elements a command needs. */
  function Needs(kind: Kind): nat {
    match kind
    case GET | INCR | LPOP | RPOP | WATCH => 2
    case SET | ZREM | LPUSH | RPUSH => 3
    case ZADD => 4
    case XADD => 5
    case _ => 1
  }

  predicate IsOneError(e: Effect, d: State) {
    e.d == d && e.persisted == [] && |e.replies| == 1 && e.replies[0].Error?
  }

  /** A command too short for its kind is refused with one error: nothing changes and nothing is
      logged or propagated. */
  lemma TooShort(d: State, c: Conn, arr: Command, env: Env)
    requires |arr| < Needs(KindOf(arr)) && !KindOf(arr).Nameless? && c !in d.transactions
    ensures IsOneError(ServeFor(d, c, arr, env), d)
  {
    if KindOf(arr).WATCH? {
      ServeControl(d, c, arr, env);
    } else {
      PlainServe(d, c, arr, env);
      match KindOf(arr)
      case ZADD | ZREM | XADD => CollectionTooShort(d, arr, env);
      case SET | GET | INCR => ValueTooShort(d, arr, env);
      case LPUSH | RPUSH | LPOP | RPOP => ListTooShort(d, arr, env);
      case _ =>
    }
  }

  lemma ValueTooShort(d: State, arr: Command, env: Env)
    requires |arr| < Needs(KindOf(arr))
    ensures KindOf(arr).SET? ==> IsOneError(ExecSET(d, arr, env), d)
    ensures KindOf(arr).GET? ==> IsOneError(ExecGET(d, arr, env), d)
    ensures KindOf(arr).INCR? ==> IsOneError(ExecINCR(d, arr), d)
  {
  }

  lemma ListTooShort(d: State, arr: Command, env: Env)
    requires |arr| < Needs(KindOf(arr))
    ensures KindOf(arr).LPUSH? ==> IsOneError(ExecPush(d, true, true, arr, env), d)
    ensures KindOf(arr).RPUSH? ==> IsOneError(ExecPush(d, true, false, arr, env), d)
    ensures KindOf(arr).LPOP? ==> IsOneError(ExecLPOP(d, arr, env), d)
    ensures KindOf(arr).RPOP? ==> IsOneError(ExecRPOP(d, arr, env), d)
  {
  }

  lemma CollectionTooShort(d: State, arr: Command, env: Env)
    requires |arr| < Needs(KindOf(arr))
    ensures KindOf(arr).ZADD? ==> IsOneError(ExecZADD(d, arr, env), d)
    ensures KindOf(arr).ZREM? ==> IsOneError(ExecZREM(d, arr), d)
    ensures KindOf(arr).XADD? ==> IsOneError(ExecXADD(d, arr, env), d)
  {
  }

  /** A push takes strings only. */
  lemma PushTakesStrings(d: State, c: Conn, arr: Command, env: Env, i: nat)
    requires (Sends(d, c, arr, "LPUSH") || Sends(d, c, arr, "RPUSH")) && 2 <= i < |arr| && !arr[i].Str?
    ensures IsOneError(ServeFor(d, c, arr, env), d)
  {
    if Names(arr, "LPUSH") { ServeLPUSH(d, c, arr, env); } else { ServeRPUSH(d, c, arr, env); }
    PushRefused(d, arr, env, i);
  }

  lemma PushRefused(d: State, arr: Command, env: Env, i: nat)
    requires 2 <= i < |arr| && !arr[i].Str?
    ensures IsOneError(ExecPush(d, true, true, arr, env), d) && IsOneError(ExecPush(d, true, false, arr, env), d)
  {
  }

  /** XADD takes strings only, in pairs after the ID. */
  lemma XADDTakesPairs(d: State, c: Conn, arr: Command, env: Env, i: nat)
    requires Sends(d, c, arr, "XADD") && |arr| >= 5 && (|arr| % 2 == 0 || (3 <= i < |arr| && !arr[i].Str?))
    ensures IsOneError(ServeFor(d, c, arr, env), d)
  {
    ServeXADD(d, c, arr, env);
    XADDRefused(d, arr, env, i);
  }

  lemma XADDRefused(d: State, arr: Command, env: Env, i: nat)
    requires |arr| % 2 == 0 || (3 <= i < |arr| && !arr[i].Str?)
    ensures IsOneError(ExecXADD(d, arr, env), d)
  {
  }

  /** XADD leaves a live key of another type alone. */
  lemma XADDWrongType(d: State, c: Conn, arr: Command, env: Env)
    requires Sends(d, c, arr, "XADD") && |arr| >= 5
    requires Arg(arr, 1) in d.cache && !d.cache[Arg(arr, 1)].Stream? && !Expired(d, Arg(arr, 1), env.now)
    ensures IsOneError(ServeFor(d, c, arr, env), d)
  {
    ServeXADD(d, c, arr, env);
  }

  /** An unknown command is answered with an error; an array without a name with nothing. */
  lemma NotACommand(d: State, c: Conn, arr: Command, env: Env)
    ensures KindOf(arr).Unknown? && c !in d.transactions ==> IsOneError(ServeFor(d, c, arr, env), d)
    ensures KindOf(arr).Nameless? ==> ServeFor(d, c, arr, env) == Effect(d, [], [])
  {
  }

  /** MULTI, EXEC, DISCARD and UNWATCH take no argument. */
  lemma TakesNoArgument(d: State, c: Conn, arr: Command, env: Env)
    requires |arr| != 1 && (KindOf(arr).MULTI? || KindOf(arr).EXEC? || KindOf(arr).DISCARD?
                            || (KindOf(arr).UNWATCH? && c !in d.transactions))
    ensures IsOneError(ServeFor(d, c, arr, env), d)
  {
  }

  /** EXEC and DISCARD outside a transaction, and MULTI and WATCH inside one, are refused. */
  lemma OutOfPlace(d: State, c: Conn, arr: Command, env: Env)
    requires if KindOf(arr).MULTI? || KindOf(arr).WATCH? then c in d.transactions
             else c !in d.transactions && (KindOf(arr).EXEC? || KindOf(arr).DISCARD?)
    ensures IsOneError(ServeFor(d, c, arr, env), d)
  {
    ServeControl(d, c, arr, env);
    if c in d.transactions { NotInside(d, c, arr); } else { NotOutside(d, c, arr, env); }
  }

  lemma ServeControl(d: State, c: Conn, arr: Command, env: Env)
    requires IsControl(KindOf(arr))
    ensures ServeFor(d, c, arr, env) == Control(d, c, arr, env)
  {
  }

  lemma NotInside(d: State, c: Conn, arr: Command)
    requires c in d.transactions
    ensures IsOneError(ExecMULTI(d, c, arr), d) && IsOneError(ExecWATCH(d, c, arr), d)
  {
  }

  lemma NotOutside(d: State, c: Conn, arr: Command, env: Env)
    requires c !in d.transactions
    ensures IsOneError(ExecEXEC(d, c, arr, env), d) && IsOneError(ExecDISCARD(d, c, arr), d)
  {
    assert ClearTx(d, c) == d;
  }

  /** Replayed, or received by a replica, a well-formed transaction command ends the process and any
      other is refused; neither changes anything. */
  lemma ControlReplayed(d: State, arr: Command, env: Env)
    requires IsControl(KindOf(arr))
    ensures var e := Handle(d, None, arr, env);
            && e.d == d && e.persisted == [] && |e.replies| == 1
            && (e.replies[0] == Crash <==> if KindOf(arr).WATCH? then |arr| > 1 else |arr| == 1)
            && (e.replies[0] != Crash ==> e.replies[0].Error?)
  {
  }

  /** Of the commands whose handlers are left out BLPOP alone is logged, when its handler says so. */
  lemma OnlyBLPOPLogs(d: State, c: Conn, arr: Command, env: Env)
    requires KindOf(arr).Outside? && c !in d.transactions
    ensures var out := env.leftOut(d.(transactions := map[]), Some(c), arr, env.now);
            var e := ServeFor(d, c, arr, env);
            e.persisted == (if Names(arr, "BLPOP") && out.logged then [arr] else []) && e.replies == out.replies
    ensures forall name :: Names([Str(name)], "BLPOP") ==> KindOf([Str(name)]).Outside?
  {
    PlainServe(d, c, arr, env);
  }

  function MomentAt(env: Env, i: nat): Env { if i == 0 then env else Next(MomentAt(env, i - 1)) }

  /** Every command of a queue reads the clock once more; nothing else of its moment changes. */
  lemma {:induction false} MomentIs(env: Env, i: nat)
    ensures var e := MomentAt(env, i);
            && e.now == (if i == 0 then env.now else env.later(i - 1))
            && e.parseFloat == env.parseFloat && e.leftOut == env.leftOut
            && forall j: nat :: e.later(j) == env.later(i + j)
  {
    if i > 0 { MomentIs(env, i - 1); }
  }
}
