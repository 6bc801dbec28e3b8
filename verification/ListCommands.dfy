/** What the list commands mean to a client: which end they work on, what they answer, what stays. */
module ListCommands {
  import opened Strconv
  import opened Resp
  import opened RespStream
  import opened StreamIds
  import opened StoreModel
  import opened Commands
  import B = BlockingLists
  import opened CommandNames

  // ---- Pushing --------------------------------------------------------------------------------

  predicate AllStrings(arr: Command, i: nat) { forall j :: i <= j < |arr| ==> arr[j].Str? }

  /** The arguments from index i on, all of them strings. */
  function Words(arr: Command, i: nat): (words: seq<string>)
    requires i <= |arr| && AllStrings(arr, i)
  {
    seq(|arr| - i, j requires 0 <= j < |arr| - i => arr[i + j].s)
  }

  lemma {:induction false} StringsAreWords(arr: Command, i: nat)
    requires i <= |arr| && AllStrings(arr, i)
    ensures StringsFrom(arr, i) == Words(arr, i)
    decreases |arr| - i
  {
    if i < |arr| {
      StringsAreWords(arr, i + 1);
      WordsHead(arr, i);
    }
  }

  lemma WordsHead(arr: Command, i: nat)
    requires i < |arr| && AllStrings(arr, i)
    ensures Words(arr, i) == [arr[i].s] + Words(arr, i + 1)
  {
    var more := [arr[i].s] + Words(arr, i + 1);
    assert forall j :: 0 <= j < |more| ==> more[j] == arr[i + j].s;
  }

  /** b is a read backwards. */
  predicate Backwards(a: seq<string>, b: seq<string>) {
    |a| == |b| && forall i :: 0 <= i < |a| ==> b[i] == a[|a| - 1 - i]
  }

  lemma {:induction false} ReverseIsBackwards(s: seq<string>)
    ensures Backwards(s, Reverse(s))
  {
    if s != [] {
      ReverseIsBackwards(s[1..]);
      forall i | 0 <= i < |s| ensures Reverse(s)[i] == s[|s| - 1 - i] {
        if i < |s| - 1 { assert Reverse(s)[i] == Reverse(s[1..])[i] == s[1..][|s| - 2 - i]; }
      }
    }
  }

  predicate PushesStrings(arr: Command) { |arr| >= 3 && AllStrings(arr, 2) }

  /** Nobody waits for the key and its time to live, if any, is not over. */
  predicate Undisturbed(d: State, key: string, now: int) { Waiters(d, key) == [] && !Expired(d, key, now) }

  lemma PushUnwaited(d: State, left: bool, key: string, values: seq<string>, now: int)
    requires Undisturbed(d, key, now) && values != []
    ensures PushTo(d, left, key, values, now)
         == (if left then LPush(d, key, values) else RPush(d, key, values), |ListAt(d, key)| + |values|)
  {
    HandOffNobody(d, key, values, []);
    assert [] + values == values;
  }

  lemma {:induction false} HandOffNobody(d: State, key: string, values: seq<string>, rest: seq<string>)
    requires Waiters(d, key) == []
    ensures HandOff(d, key, values, rest) == (d, rest + values)
    decreases |values|
  {
    if values == [] {
      assert rest + values == rest;
    } else {
      HandOffNobody(d, key, values[1..], rest + [values[0]]);
      assert rest + [values[0]] + values[1..] == rest + values;
    }
  }

  /** A list command that stores a list: the key's deadline, the queues of waiters and everything
      else stay, the command is logged. */
  predicate StoresList(d: State, e: Effect, arr: Command, items: seq<string>) {
    && e.d.cache == d.cache[Arg(arr, 1) := List(items)] && e.d.expiry == d.expiry
    && e.d.waiters == d.waiters && e.d.mail == d.mail && e.d.transactions == d.transactions && e.persisted == [arr]
  }

  /** RPUSH appends its values in order and answers the new length. */
  lemma RPushAppends(d: State, c: Conn, arr: Command, env: Env)
    requires Sends(d, c, arr, "RPUSH") && PushesStrings(arr) && Undisturbed(d, Arg(arr, 1), env.now)
    ensures var e, items := ServeFor(d, c, arr, env), ListAt(d, Arg(arr, 1)) + Words(arr, 2);
            StoresList(d, e, arr, items) && e.replies == [Integer(|items|)]
  {
    ServeRPUSH(d, c, arr, env);
    StringsAreWords(arr, 2);
    PushUnwaited(d, false, Arg(arr, 1), Words(arr, 2), env.now);
  }

  /** LPUSH puts its values in front, the last one first, and answers the new length. */
  lemma LPushPrepends(d: State, c: Conn, arr: Command, env: Env) returns (front: seq<string>)
    requires Sends(d, c, arr, "LPUSH") && PushesStrings(arr) && Undisturbed(d, Arg(arr, 1), env.now)
    ensures Backwards(Words(arr, 2), front)
    ensures var e, items := ServeFor(d, c, arr, env), front + ListAt(d, Arg(arr, 1));
            StoresList(d, e, arr, items) && e.replies == [Integer(|items|)]
  {
    ServeLPUSH(d, c, arr, env);
    StringsAreWords(arr, 2);
    PushUnwaited(d, true, Arg(arr, 1), Words(arr, 2), env.now);
    ReverseIsBackwards(Words(arr, 2));
    front := Reverse(Words(arr, 2));
  }

  /** Whoever waits, a push answers the length of the list it found and of its values together. */
  lemma PushAnswers(d: State, c: Conn, arr: Command, env: Env)
    requires c !in d.transactions && (Names(arr, "LPUSH") || Names(arr, "RPUSH")) && PushesStrings(arr)
    ensures var e, key := ServeFor(d, c, arr, env), Arg(arr, 1);
            var found := if Expired(d, key, env.now) then [] else ListAt(d, key);
            e.replies == [Integer(|found| + |Words(arr, 2)|)] && e.persisted == [arr]
  {
    StringsAreWords(arr, 2);
    if Names(arr, "LPUSH") { ServeLPUSH(d, c, arr, env); } else { ServeRPUSH(d, c, arr, env); }
  }

  /** The waiters that are served, what they are sent, and what is stored. */
  predicate Serves(d: State, d': State, key: string, left: bool, values: seq<string>) {
    var n, queue := B.Handed(d, key, values), Waiters(d, key);
    && Waiters(d', key) == queue[n..]
    && (forall i :: 0 <= i < n ==> Mail(d', queue[i]) == [values[i]])
    && d'.cache == (if n == |values| then d.cache
                    else d.cache[key := List(Joined(left, values[n..], ListAt(d, key)))])
  }

  /** While clients wait, the first values go to them in order and the others to the list, as if they
      alone were pushed. */
  lemma PushServesFirst(d: State, c: Conn, arr: Command, env: Env, channels: set<Chan>)
    requires c !in d.transactions && (Names(arr, "LPUSH") || Names(arr, "RPUSH")) && PushesStrings(arr)
    requires !Expired(d, Arg(arr, 1), env.now) && B.WaitersOpen(d, channels)
    ensures Serves(d, ServeFor(d, c, arr, env).d, Arg(arr, 1), Names(arr, "LPUSH"), Words(arr, 2))
  {
    StringsAreWords(arr, 2);
    var left := Names(arr, "LPUSH");
    if left { ServeLPUSH(d, c, arr, env); } else { ServeRPUSH(d, c, arr, env); }
    PushServes(d, left, Arg(arr, 1), Words(arr, 2), env.now, channels);
  }

  /** Values in front of a list, the last one first, or behind it. */
  function Joined(left: bool, values: seq<string>, items: seq<string>): seq<string> {
    if left then Reverse(values) + items else items + values
  }

  lemma PushServes(d: State, left: bool, key: string, values: seq<string>, now: int, channels: set<Chan>)
    requires !Expired(d, key, now) && B.WaitersOpen(d, channels)
    ensures Serves(d, PushTo(d, left, key, values, now).0, key, left, values)
  {
    B.HandOffInOrder(d, key, values, [], channels);
    var n, d1 := B.Handed(d, key, values), HandOff(d, key, values, []).0;
    assert [] + values[n..] == values[n..] && ListAt(d1, key) == ListAt(d, key);
    PushLast(d1, left, key, values[n..]);
    PushSteps(d, left, key, values, now);
  }

  /** The values nobody waited for. */
  function PushRest(d: State, left: bool, key: string, values: seq<string>): State {
    if values == [] then d else if left then LPush(d, key, values) else RPush(d, key, values)
  }

  lemma PushSteps(d: State, left: bool, key: string, values: seq<string>, now: int)
    requires !Expired(d, key, now)
    ensures var (d1, rest) := HandOff(d, key, values, []);
            PushTo(d, left, key, values, now).0 == PushRest(d1, left, key, rest)
  {
  }

  lemma PushLast(d: State, left: bool, key: string, values: seq<string>)
    ensures var d' := PushRest(d, left, key, values);
            && d'.waiters == d.waiters && d'.mail == d.mail
            && d'.cache == if values == [] then d.cache else d.cache[key := List(Joined(left, values, ListAt(d, key)))]
  {
  }

  // ---- Popping --------------------------------------------------------------------------------

  /** The values an answer carries. */
  function Values(reply: Reply): seq<string> {
    match reply
    case Bulk(text) => [text]
    case BulkArray(items) => items
    case _ => []
  }

  /** How many values LPOP is asked for. */
  function Wanted(arr: Command): int {
    if |arr| != 3 || !arr[2].Str? then 1 else Atoi(arr[2].s).ValueIgnoringError()
  }

  predicate LiveList(d: State, key: string, items: seq<string>, now: int) {
    Lookup(d.cache, key) == Some(List(items)) && !Expired(d, key, now)
  }

  /** LPOP answers values from the front, as many as wanted while there are some; with what stays
      they make up the list. The rest is stored without a deadline, an empty rest as an empty list. */
  lemma LPopTakes(d: State, c: Conn, arr: Command, env: Env, items: seq<string>)
    requires Sends(d, c, arr, "LPOP") && |arr| >= 2 && (|arr| == 3 ==> arr[2].Str?) && Wanted(arr) > 0
    requires LiveList(d, Arg(arr, 1), items, env.now) && items != []
    ensures var e, key := ServeFor(d, c, arr, env), Arg(arr, 1);
            && |e.replies| == 1 && e.persisted == [arr]
            && key in e.d.cache && e.d.cache[key].List? && key !in e.d.expiry
            && Values(e.replies[0]) + e.d.cache[key].items == items
            && |Values(e.replies[0])| == (if Wanted(arr) < |items| then Wanted(arr) else |items|)
            && (e.replies[0].Bulk? <==> |Values(e.replies[0])| == 1)
  {
    ServeLPOP(d, c, arr, env);
    FrontTaken(items, Wanted(arr));
  }

  lemma FrontTaken(items: seq<string>, count: int)
    requires items != [] && count > 0
    ensures var (reply, rest) := TakeFront(Some(List(items)), count);
            && rest.Some? && Values(reply) + rest.value == items
            && |Values(reply)| == (if count < |items| then count else |items|)
            && (reply.Bulk? <==> |Values(reply)| == 1) && (reply.Bulk? || reply.BulkArray?)
  {
    var n := if count > |items| then |items| else count;
    assert items[..n] + items[n..] == items;
    if n == 1 { assert items[..n] == [items[0]]; }
  }

  /** RPOP answers the last value and leaves the others. */
  lemma RPopTakes(d: State, c: Conn, arr: Command, env: Env, items: seq<string>)
    requires Sends(d, c, arr, "RPOP") && |arr| >= 2
    requires LiveList(d, Arg(arr, 1), items, env.now) && items != []
    ensures var e, key := ServeFor(d, c, arr, env), Arg(arr, 1);
            && |e.replies| == 1 && e.replies[0].Bulk? && e.persisted == [arr]
            && key in e.d.cache && e.d.cache[key].List? && key !in e.d.expiry
            && e.d.cache[key].items + [e.replies[0].text] == items
  {
    ServeRPOP(d, c, arr, env);
    BackTaken(items);
  }

  lemma BackTaken(items: seq<string>)
    requires items != []
    ensures var (reply, rest) := TakeBack(Some(List(items)));
            rest.Some? && reply.Bulk? && rest.value + [reply.text] == items
  {
  }

  /** A pop of a key without values answers null; of another type, or of a count that is not
      positive, an error. Nothing is logged, and nothing changes unless the key was expired. */
  lemma PopsNothing(d: State, c: Conn, arr: Command, env: Env)
    requires c !in d.transactions && (Names(arr, "LPOP") || Names(arr, "RPOP"))
    requires |arr| >= 2 && (|arr| == 3 ==> arr[2].Str?)
    ensures var e, key := ServeFor(d, c, arr, env), Arg(arr, 1);
            && (key !in d.cache || LiveList(d, key, [], env.now) ==>
                  e.d == d && e.persisted == [] && e.replies == [NullBulk])
            && (Expired(d, key, env.now) ==> e.d == DropKey(d, key) && e.persisted == [] && e.replies == [NullBulk])
            && (key in d.cache && !d.cache[key].List? && !Expired(d, key, env.now) ==>
                  e.d == d && e.persisted == [] && |e.replies| == 1 && e.replies[0].Error?)
            && (Names(arr, "LPOP") && Wanted(arr) <= 0 && key in d.cache && !Expired(d, key, env.now) ==>
                  e.d == d && e.persisted == [] && |e.replies| == 1 && (e.replies[0].Error? || e.replies[0].NullBulk?))
  {
    if Names(arr, "LPOP") { ServeLPOP(d, c, arr, env); } else { ServeRPOP(d, c, arr, env); }
  }

  // ---- Push and pop -----------------------------------------------------------------------------

  predicate OneValue(arr: Command, key: string, value: string) {
    |arr| == 3 && arr[1] == Str(key) && arr[2] == Str(value)
  }

  predicate OfKey(arr: Command, key: string) { |arr| == 2 && arr[1] == Str(key) }

  /** RPUSH of a value nobody waits for, then RPOP: the value comes back and the list is as it was. */
  lemma RPushThenRPop(d: State, c: Conn, push: Command, env: Env, key: string, value: string,
                      c2: Conn, pop: Command, env2: Env)
    requires Sends(d, c, push, "RPUSH") && OneValue(push, key, value) && Undisturbed(d, key, env.now)
    requires c2 !in d.transactions && Names(pop, "RPOP") && OfKey(pop, key)
    requires key in d.expiry ==> env2.now <= d.expiry[key]
    ensures var d1 := ServeFor(d, c, push, env).d;
            var e := ServeFor(d1, c2, pop, env2);
            e.replies == [Bulk(value)] && ListAt(e.d, key) == ListAt(d, key)
  {
    RPushAppends(d, c, push, env);
    assert Words(push, 2) == [value];
    var items := ListAt(d, key) + [value];
    PopAfterPush(d, ServeFor(d, c, push, env), push, items, c2, pop, env2, key);
    BackIs(ListAt(d, key), value, items);
  }

  lemma PopAfterPush(d: State, e: Effect, push: Command, items: seq<string>, c2: Conn, pop: Command, env2: Env,
                     key: string)
    requires StoresList(d, e, push, items) && Arg(push, 1) == key && items != []
    requires Sends(e.d, c2, pop, "RPOP") && OfKey(pop, key)
    requires key in d.expiry ==> env2.now <= d.expiry[key]
    ensures var e2 := ServeFor(e.d, c2, pop, env2);
            && |e2.replies| == 1 && e2.replies[0].Bulk? && ListAt(e2.d, key) + [e2.replies[0].text] == items
  {
    RPopTakes(e.d, c2, pop, env2, items);
  }

  lemma BackIs(items: seq<string>, value: string, all: seq<string>)
    requires all == items + [value]
    ensures forall rest: seq<string>, x :: rest + [x] == all ==> rest == items && x == value
  {
    forall rest: seq<string>, x | rest + [x] == all ensures rest == items && x == value {
      assert all[|all| - 1] == x && all[..|all| - 1] == rest;
    }
  }

  // ---- BLPOP --------------------------------------------------------------------------------------

  /** BLPOP takes the head; the last value takes the key with it, whose deadline stays. Without
      values the client joins the end of the queue and nothing else changes. */
  lemma BLPopTakes(d: State, key: string, ch: Chan)
    ensures var (d', value) := BLPop(d, key, ch);
            && d'.expiry == d.expiry && d'.transactions == d.transactions && d'.mail == d.mail
            && (ListAt(d, key) == [] ==>
                  value == None && d'.cache == d.cache && Waiters(d', key) == Waiters(d, key) + [ch]
                  && forall other :: other != key ==> Waiters(d', other) == Waiters(d, other))
            && (ListAt(d, key) != [] ==>
                  && value.Some? && [value.value] + ListAt(d', key) == ListAt(d, key) && d'.waiters == d.waiters
                  && (key in d'.cache <==> |ListAt(d, key)| > 1) && d'.cache - {key} == d.cache - {key})
  {
    var items := ListAt(d, key);
    if items != [] {
      assert [items[0]] + items[1..] == items;
      if |items| == 1 { assert (d.cache - {key}) - {key} == d.cache - {key}; }
    }
  }
}
