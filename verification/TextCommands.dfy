/** What SET, GET and INCR mean to a client: the value stored and its deadline, the text answered
    while it lives, the number counted. */
module TextCommands {
  import opened Strconv
  import opened Resp
  import opened RespStream
  import opened StreamIds
  import opened StoreModel
  import opened Expiry
  import opened Commands
  import opened CommandNames

  // ---- SET ------------------------------------------------------------------------------------

  /** The command asks for a time to live of n units. */
  predicate AsksFor(arr: Command, option: string, n: int) {
    |arr| >= 5 && arr[3].Str? && ToUpper(arr[3].s) == option && arr[4] == Str(FormatInt(n)) && IsInt64(n)
  }

  /** The value is stored under the key, the command is logged as it came, the client gets OK. */
  predicate StoresText(e: Effect, arr: Command) {
    Lookup(e.d.cache, Arg(arr, 1)) == Some(Text(Arg(arr, 2))) && e.persisted == [arr] && e.replies == [OK]
  }

  /** EX counts in seconds: the deadline is that far ahead exactly when its nanoseconds fit int64. */
  lemma SetEX(d: State, c: Conn, arr: Command, env: Env, n: int)
    requires Sends(d, c, arr, "SET") && AsksFor(arr, "EX", n)
    ensures var e := ServeFor(d, c, arr, env);
            && StoresText(e, arr) && Arg(arr, 1) in e.d.expiry
            && (e.d.expiry[Arg(arr, 1)] == env.now + n * 1_000_000_000 <==> IsInt64(n * 1_000_000_000))
  {
    ServeSET(d, c, arr, env);
    AtoiFormat(n);
    DeadlineExact(env.now, n);
  }

  /** PX counts in milliseconds. */
  lemma SetPX(d: State, c: Conn, arr: Command, env: Env, n: int)
    requires Sends(d, c, arr, "SET") && AsksFor(arr, "PX", n)
    ensures var e := ServeFor(d, c, arr, env);
            && StoresText(e, arr) && Arg(arr, 1) in e.d.expiry
            && (e.d.expiry[Arg(arr, 1)] == env.now + n * 1_000_000 <==> IsInt64(n * 1_000_000))
  {
    ServeSET(d, c, arr, env);
    AtoiFormat(n);
    DeadlineExactMillis(env.now, n);
  }

  /** A SET leaves its key with a deadline exactly if it has a fourth argument EX or PX, in any case,
      and a number after it; anything else it is given is ignored. */
  lemma SetDeadline(d: State, c: Conn, arr: Command, env: Env)
    requires Sends(d, c, arr, "SET") && |arr| >= 3
    ensures var e := ServeFor(d, c, arr, env);
            && StoresText(e, arr)
            && (Arg(arr, 1) in e.d.expiry <==>
                |arr| >= 5 && (ToUpper(Arg(arr, 3)) == "EX" || ToUpper(Arg(arr, 3)) == "PX")
                && Atoi(Arg(arr, 4)).Parsed?)
  {
    ServeSET(d, c, arr, env);
  }

  /** No other key changes. */
  lemma SetElsewhere(d: State, c: Conn, arr: Command, env: Env, k: string)
    requires Sends(d, c, arr, "SET") && |arr| >= 3 && k != Arg(arr, 1)
    ensures var e := ServeFor(d, c, arr, env);
            Lookup(e.d.cache, k) == Lookup(d.cache, k) && Lookup(e.d.expiry, k) == Lookup(d.expiry, k)
  {
    ServeSET(d, c, arr, env);
    OnlyItsKey(d, arr, env, k);
  }

  lemma OnlyItsKey(d: State, arr: Command, env: Env, k: string)
    requires k != Arg(arr, 1)
    ensures var d' := ExecSET(d, arr, env).d;
            Lookup(d'.cache, k) == Lookup(d.cache, k) && Lookup(d'.expiry, k) == Lookup(d.expiry, k)
  {
    if |arr| >= 3 { OnlyValue(d, Arg(arr, 1), Text(Arg(arr, 2)), k); }
  }

  lemma OnlyValue(d: State, key: string, value: Datum, k: string)
    requires k != key
    ensures var d' := SetValue(d, key, value);
            Lookup(d'.cache, k) == Lookup(d.cache, k) && Lookup(d'.expiry, k) == Lookup(d.expiry, k)
  {
  }

  // ---- GET ------------------------------------------------------------------------------------

  /** The key holds the value and its time to live, if it has one, is not over: at the deadline
      itself GET still finds it. */
  predicate Alive(d: State, key: string, value: Datum, now: int) {
    Lookup(d.cache, key) == Some(value) && (key in d.expiry ==> now <= d.expiry[key])
  }

  /** GET answers the text a living key holds, nothing for a key that is absent or over, which it
      removes, and breaks off on another type. */
  lemma GetAnswers(d: State, c: Conn, arr: Command, env: Env)
    requires Sends(d, c, arr, "GET") && |arr| >= 2
    ensures var e, key := ServeFor(d, c, arr, env), Arg(arr, 1);
            && e.persisted == []
            && (forall text :: Alive(d, key, Text(text), env.now) ==> e.replies == [Bulk(text)] && e.d == d)
            && (key !in d.cache ==> e.replies == [NullBulk] && e.d == d)
            && (key in d.cache && key in d.expiry && d.expiry[key] < env.now ==>
                  e.replies == [NullBulk] && e.d.cache == d.cache - {key} && e.d.expiry == d.expiry - {key})
            && (forall value :: Alive(d, key, value, env.now) && !value.Text? ==> e.replies == [Crash] && e.d == d)
  {
    ServeGET(d, c, arr, env);
  }

  /** A cleanup removes its key from the deadline on, the key itself included. */
  lemma CleanFrom(d: State, key: string, now: int)
    requires key in d.cache && key in d.expiry
    ensures key in Clean(d, key, now).cache <==> now < d.expiry[key]
    ensures key in Clean(d, key, now).expiry <==> now < d.expiry[key]
  {
  }

  predicate Fetches(arr: Command, key: string) { |arr| >= 2 && arr[1] == Str(key) }

  /** SET with n seconds, then GET by anybody: the value until they are over, then nothing. */
  lemma SetThenGet(d: State, c: Conn, arr: Command, env: Env, n: int, c2: Conn, get: Command, env2: Env)
    requires Sends(d, c, arr, "SET") && AsksFor(arr, "EX", n) && IsInt64(n * 1_000_000_000)
    requires c2 !in d.transactions && Names(get, "GET") && Fetches(get, Arg(arr, 1))
    ensures var e2 := ServeFor(ServeFor(d, c, arr, env).d, c2, get, env2);
            e2.replies == [if env2.now <= env.now + n * 1_000_000_000 then Bulk(Arg(arr, 2)) else NullBulk]
  {
    SetEX(d, c, arr, env, n);
    SetKeepsQueues(d, c, arr, env);
    var d1 := ServeFor(d, c, arr, env).d;
    AnswerAfterSet(d1, c2, get, env2, Arg(arr, 1), Arg(arr, 2), env.now + n * 1_000_000_000);
  }

  lemma AnswerAfterSet(d: State, c: Conn, get: Command, env: Env, key: string, text: string, deadline: int)
    requires Sends(d, c, get, "GET") && Fetches(get, key)
    requires Lookup(d.cache, key) == Some(Text(text)) && Lookup(d.expiry, key) == Some(deadline)
    ensures ServeFor(d, c, get, env).replies == [if env.now <= deadline then Bulk(text) else NullBulk]
  {
    GetAnswers(d, c, get, env);
    if env.now <= deadline { assert Alive(d, key, Text(text), env.now); }
  }

  lemma SetKeepsQueues(d: State, c: Conn, arr: Command, env: Env)
    requires Sends(d, c, arr, "SET")
    ensures ServeFor(d, c, arr, env).d.transactions == d.transactions
  {
    ServeSET(d, c, arr, env);
  }

  // ---- INCR -----------------------------------------------------------------------------------

  /** The number a key counts from: none is 0, a text that is an int64 is that. */
  function Number(d: State, key: string): Option<int> {
    if key !in d.cache then Some(0)
    else if d.cache[key].Text? && Atoi(d.cache[key].text).Parsed? then Some(Atoi(d.cache[key].text).value)
    else None
  }

  /** INCR stores and answers the next number, and the smallest int64 after the largest; the deadline
      stays. A key without a number is left alone and the command is not logged. */
  lemma IncrCounts(d: State, c: Conn, arr: Command, env: Env)
    requires Sends(d, c, arr, "INCR") && |arr| >= 2
    ensures var e, key, n := ServeFor(d, c, arr, env), Arg(arr, 1), Number(d, Arg(arr, 1));
            && e.d.expiry == d.expiry && e.d.transactions == d.transactions
            && (n.Some? ==>
                  var next := if n.value == MAX_INT64 then MIN_INT64 else n.value + 1;
                  e.replies == [Integer(next)] && e.persisted == [arr]
                  && e.d.cache == d.cache[key := Text(FormatInt(next))])
            && (n.None? ==> e.d == d && e.persisted == [] && |e.replies| == 1 && e.replies[0].Error?)
  {
    ServeINCR(d, c, arr, env);
    WrapsRound();
  }

  lemma WrapsRound()
    ensures Wrap64(MAX_INT64 + 1) == MIN_INT64
  {
  }

  /** Every number int64 arithmetic gives differs from the exact one by a multiple of 2^64. */
  lemma WrapIsModular(n: int)
    ensures (n - Wrap64(n)) % 0x1_0000_0000_0000_0000 == 0
  {
    var m := n + 0x8000_0000_0000_0000;
    assert n - Wrap64(n) == m - m % 0x1_0000_0000_0000_0000 == m / 0x1_0000_0000_0000_0000 * 0x1_0000_0000_0000_0000;
  }

  /** An INCR of the key by a client outside a transaction. */
  predicate Increments(queues: map<Conn, seq<Command>>, call: Call, key: string) {
    && call.conn.Some? && call.conn.value !in queues && Names(call.arr, "INCR")
    && |call.arr| >= 2 && Arg(call.arr, 1) == key
  }

  predicate AllIncrement(queues: map<Conn, seq<Command>>, calls: seq<Call>, key: string) {
    forall i :: 0 <= i < |calls| ==> Increments(queues, calls[i], key)
  }

  function Counted(n: int, k: nat): seq<Reply>
    decreases k
  {
    if k == 0 then [] else [Integer(n + 1)] + Counted(n + 1, k - 1)
  }

  /** What IncrCounts says of a call, for any server function. */
  ghost predicate CountsOn(serve: (State, Call) -> Effect, d: State, call: Call, key: string) {
    Increments(d.transactions, call, key) && Number(d, key).Some? && Number(d, key).value < MAX_INT64 ==>
      var e, n := serve(d, call), Number(d, key).value;
      e.replies == [Integer(n + 1)] && e.d.transactions == d.transactions && Number(e.d, key) == Some(n + 1)
  }

  lemma {:induction false} CountingRun(serve: (State, Call) -> Effect, d: State, calls: seq<Call>, key: string, n: int)
    requires forall s, call :: CountsOn(serve, s, call, key)
    requires AllIncrement(d.transactions, calls, key) && Number(d, key) == Some(n) && n + |calls| <= MAX_INT64
    ensures Number(RunWith(serve, d, calls).d, key) == Some(n + |calls|)
    ensures RunWith(serve, d, calls).replies == Counted(n, |calls|)
    decreases |calls|
  {
    if calls != [] {
      var d1 := serve(d, calls[0]).d;
      assert CountsOn(serve, d, calls[0], key) && Increments(d.transactions, calls[0], key);
      assert d1.transactions == d.transactions && AllIncrement(d.transactions, calls[1..], key);
      CountingRun(serve, d1, calls[1..], key, n + 1);
    }
  }

  /** k INCRs of a key, by any clients, add k and answer the numbers in between. */
  lemma IncrRun(d: State, calls: seq<Call>, key: string, n: int)
    requires AllIncrement(d.transactions, calls, key) && Number(d, key) == Some(n) && n + |calls| <= MAX_INT64
    ensures Number(ServeAll(d, calls), key) == Some(n + |calls|)
    ensures Answers(d, calls) == Counted(n, |calls|)
  {
    forall s, call ensures CountsOn(Serve, s, call, key) {
      if Increments(s.transactions, call, key) { IncrServed(s, call, key); }
    }
    CountingRun(Serve, d, calls, key, n);
  }

  lemma IncrServed(d: State, call: Call, key: string)
    requires Increments(d.transactions, call, key)
    ensures CountsOn(Serve, d, call, key)
  {
    assert call == Call(Some(call.conn.value), call.arr, call.env);
    IncrCounts(d, call.conn.value, call.arr, call.env);
    if Number(d, key).Some? && Number(d, key).value < MAX_INT64 {
      NumberIs(Serve(d, call).d, key, Number(d, key).value + 1);
    }
  }

  lemma NumberIs(d: State, key: string, n: int)
    requires IsInt64(n) && Lookup(d.cache, key) == Some(Text(FormatInt(n)))
    ensures Number(d, key) == Some(n)
  {
    AtoiFormat(n);
  }
}
