/** What ZADD and ZREM do to a sorted set and what they count, and which way round it is sorted. */
module SetCommands {
  import opened Resp
  import opened RespStream
  import opened StreamIds
  import opened StoreModel
  import opened Commands
  import opened SortedSets
  import opened CommandNames

  // ---- ZADD -----------------------------------------------------------------------------------

  /** A sorted set or nothing, which is an empty one. */
  predicate HoldsSet(d: State, key: string, scores: map<string, Score>) {
    if key in d.cache then d.cache[key] == ZSet(scores) else scores == map[]
  }

  /** The pairs of a command, each a member and its score, if that parses. */
  type Pair = (string, Option<Score>)

  function PairAt(arr: Command, env: Env, i: int): Pair
    requires 0 <= i
  {
    (Arg(arr, i + 1), env.parseFloat(Arg(arr, i)))
  }

  /** From argument i on the command holds these pairs and nothing else. */
  predicate HasPairs(arr: Command, env: Env, i: nat, pairs: seq<Pair>) {
    |arr| == i + 2 * |pairs| && forall k :: 0 <= k < |pairs| ==> pairs[k] == PairAt(arr, env, i + 2 * k)
  }

  predicate AllParse(pairs: seq<Pair>) { forall k :: 0 <= k < |pairs| ==> pairs[k].1.Some? }

  /** Pair k is the last one of its member. */
  predicate LastOf(pairs: seq<Pair>, k: int) {
    0 <= k < |pairs| && forall j :: k < j < |pairs| ==> pairs[j].0 != pairs[k].0
  }

  predicate Named(pairs: seq<Pair>, m: string) { exists k :: 0 <= k < |pairs| && pairs[k].0 == m }

  /** Every member named has the score named with it last, the others have the score they had. */
  ghost predicate Updated(before: map<string, Score>, after: map<string, Score>, pairs: seq<Pair>) {
    && (forall k :: LastOf(pairs, k) ==> Lookup(after, pairs[k].0) == pairs[k].1)
    && (forall m :: !Named(pairs, m) ==> Lookup(after, m) == Lookup(before, m))
  }

  lemma OneMore<K, V>(m: map<K, V>, k: K, v: V)
    ensures |m[k := v]| == |m| + if k in m then 0 else 1
  {
    assert m[k := v].Keys == m.Keys + {k};
    assert |m[k := v].Keys| == |m[k := v]| && |m.Keys| == |m|;
  }

  function AddPairs(scores: map<string, Score>, pairs: seq<Pair>): map<string, Score>
    requires AllParse(pairs)
    decreases |pairs|
  {
    if pairs == [] then scores
    else
      var n := |pairs| - 1;
      AddPairs(scores, pairs[..n])[pairs[n].0 := pairs[n].1.value]
  }

  lemma {:induction false} AddedIsUpdate(scores: map<string, Score>, pairs: seq<Pair>)
    requires AllParse(pairs)
    ensures Updated(scores, AddPairs(scores, pairs), pairs)
    decreases |pairs|
  {
    if pairs != [] {
      var n := |pairs| - 1;
      var first, after := pairs[..n], AddPairs(scores, pairs);
      AddedIsUpdate(scores, first);
      forall k | LastOf(pairs, k) ensures Lookup(after, pairs[k].0) == pairs[k].1 {
        if k < n { assert LastOf(first, k) && first[k] == pairs[k]; }
      }
      forall m | !Named(pairs, m) ensures Lookup(after, m) == Lookup(scores, m) {
        assert !Named(first, m) && pairs[n].0 != m;
      }
    }
  }

  lemma {:induction false} AddFirst(scores: map<string, Score>, pairs: seq<Pair>)
    requires AllParse(pairs) && pairs != []
    ensures AddPairs(scores, pairs) == AddPairs(scores[pairs[0].0 := pairs[0].1.value], pairs[1..])
    decreases |pairs|
  {
    var n := |pairs| - 1;
    if n > 0 {
      AddFirst(scores, pairs[..n]);
      assert pairs[..n][1..] == pairs[1..][..n - 1];
    } else {
      assert pairs[..0] == [] && pairs[1..] == [];
    }
  }

  /** The set is stored; the deadlines and the queues of transactions stay. */
  predicate Stores(d: State, d': State, key: string, scores: map<string, Score>) {
    d'.cache == d.cache[key := ZSet(scores)] && d'.expiry == d.expiry && d'.transactions == d.transactions
  }

  lemma StoresLast(d: State, d1: State, d2: State, key: string, a: map<string, Score>, b: map<string, Score>)
    requires Stores(d, d1, key, a) && (Stores(d1, d2, key, b) || (d2 == d1 && b == a))
    ensures Stores(d, d2, key, b)
  {
    assert d.cache[key := ZSet(a)][key := ZSet(b)] == d.cache[key := ZSet(b)];
  }

  lemma OnePair(d: State, key: string, score: Score, m: string, before: map<string, Score>)
    requires HoldsSet(d, key, before)
    ensures var (d', added) := ZAdd(d, key, score, m);
            && Stores(d, d', key, before[m := score]) && HoldsSet(d', key, before[m := score])
            && added == if m in before then 0 else 1
  {
  }

  /** How many members the pairs bring in. */
  function Grown(before: map<string, Score>, pairs: seq<Pair>): int
    requires AllParse(pairs)
    decreases |pairs|
  {
    if pairs == [] then 0
    else
      (if pairs[0].0 in before then 0 else 1) + Grown(before[pairs[0].0 := pairs[0].1.value], pairs[1..])
  }

  lemma {:induction false} GrownIsGrowth(before: map<string, Score>, pairs: seq<Pair>)
    requires AllParse(pairs)
    ensures Grown(before, pairs) == |AddPairs(before, pairs)| - |before|
    decreases |pairs|
  {
    if pairs != [] {
      OneMore(before, pairs[0].0, pairs[0].1.value);
      GrownIsGrowth(before[pairs[0].0 := pairs[0].1.value], pairs[1..]);
      AddFirst(before, pairs);
    }
  }

  /** The loop of ZADD stores the set it leads to. */
  lemma {:induction false} LoopStores(d: State, key: string, arr: Command, i: nat, env: Env, n: int,
                                      before: map<string, Score>, pairs: seq<Pair>)
    requires i <= |arr| && (|arr| - i) % 2 == 0 && HasPairs(arr, env, i, pairs) && AllParse(pairs)
    requires HoldsSet(d, key, before)
    ensures var d' := ZAddFrom(d, key, arr, i, env, n).0;
            if pairs == [] then d' == d else Stores(d, d', key, AddPairs(before, pairs))
    decreases |pairs|
  {
    if pairs != [] {
      var m, score := pairs[0].0, pairs[0].1.value;
      FirstPair(arr, env, i, pairs);
      var (d1, added) := ZAdd(d, key, score, m);
      var next, more := before[m := score], pairs[1..];
      TailPairs(arr, env, i, pairs);
      OnePair(d, key, score, m, before);
      LoopStores(d1, key, arr, i + 2, env, n + added, next, more);
      AddFirst(before, pairs);
      StoresLast(d, d1, ZAddFrom(d1, key, arr, i + 2, env, n + added).0, key, next, AddPairs(next, more));
      LoopUnfolds(d, key, arr, i, env, n, score, m);
    }
  }

  /** And counts the members that are new. */
  lemma {:induction false} LoopCounts(d: State, key: string, arr: Command, i: nat, env: Env, n: int,
                                      before: map<string, Score>, pairs: seq<Pair>)
    requires i <= |arr| && (|arr| - i) % 2 == 0 && HasPairs(arr, env, i, pairs) && AllParse(pairs)
    requires HoldsSet(d, key, before)
    ensures var count := ZAddFrom(d, key, arr, i, env, n).1; count.Some? && count.value == n + Grown(before, pairs)
    decreases |pairs|
  {
    if pairs == [] {
      LoopEnds(d, key, arr, i, env, n);
    } else {
      var m, score := pairs[0].0, pairs[0].1.value;
      FirstPair(arr, env, i, pairs);
      var (d1, added) := ZAdd(d, key, score, m);
      TailPairs(arr, env, i, pairs);
      OnePair(d, key, score, m, before);
      LoopCounts(d1, key, arr, i + 2, env, n + added, before[m := score], pairs[1..]);
      GrownFirst(before, pairs);
      LoopUnfolds(d, key, arr, i, env, n, score, m);
    }
  }

  lemma LoopEnds(d: State, key: string, arr: Command, i: nat, env: Env, n: int)
    requires i == |arr|
    ensures ZAddFrom(d, key, arr, i, env, n) == (d, Some(n))
  {
  }

  lemma FirstPair(arr: Command, env: Env, i: nat, pairs: seq<Pair>)
    requires HasPairs(arr, env, i, pairs) && AllParse(pairs) && pairs != []
    ensures i < |arr| && env.parseFloat(Arg(arr, i)) == Some(pairs[0].1.value) && Arg(arr, i + 1) == pairs[0].0
    ensures AllParse(pairs[1..])
  {
    assert pairs[0] == PairAt(arr, env, i + 2 * 0);
  }

  lemma GrownFirst(before: map<string, Score>, pairs: seq<Pair>)
    requires AllParse(pairs) && pairs != []
    ensures AllParse(pairs[1..])
    ensures Grown(before, pairs)
         == (if pairs[0].0 in before then 0 else 1) + Grown(before[pairs[0].0 := pairs[0].1.value], pairs[1..])
  {
  }

  lemma TailPairs(arr: Command, env: Env, i: nat, pairs: seq<Pair>)
    requires HasPairs(arr, env, i, pairs) && pairs != []
    ensures HasPairs(arr, env, i + 2, pairs[1..]) && i + 2 <= |arr|
  {
    forall k | 0 <= k < |pairs[1..]| ensures pairs[1..][k] == PairAt(arr, env, i + 2 + 2 * k) {
      assert pairs[k + 1] == PairAt(arr, env, i + 2 * (k + 1));
    }
  }

  lemma LoopUnfolds(d: State, key: string, arr: Command, i: nat, env: Env, n: int, score: Score, m: string)
    requires i < |arr| && (|arr| - i) % 2 == 0 && i + 2 <= |arr|
    requires env.parseFloat(Arg(arr, i)) == Some(score) && Arg(arr, i + 1) == m
    ensures var (d1, added) := ZAdd(d, key, score, m);
            var (all, more) := (ZAddFrom(d, key, arr, i, env, n), ZAddFrom(d1, key, arr, i + 2, env, n + added));
            all.0 == more.0 && all.1 == more.1
  {
  }

  /** ZADD with scores that parse: the members get the scores named last with them, the answer is the
      number of members that are new, the deadline stays, the command is logged. */
  lemma ZAddUpdates(d: State, c: Conn, arr: Command, env: Env, pairs: seq<Pair>, before: map<string, Score>)
    returns (after: map<string, Score>, added: int)
    requires Sends(d, c, arr, "ZADD") && pairs != [] && HasPairs(arr, env, 2, pairs) && AllParse(pairs)
    requires HoldsSet(d, Arg(arr, 1), before)
    ensures Updated(before, after, pairs) && added == |after| - |before|
    ensures var e := ServeFor(d, c, arr, env);
            Stores(d, e.d, Arg(arr, 1), after) && e.replies == [Integer(added)] && e.persisted == [arr]
  {
    ServeZADD(d, c, arr, env);
    after, added := AddPairs(before, pairs), Grown(before, pairs);
    AddedIsUpdate(before, pairs);
    GrownIsGrowth(before, pairs);
    AddsAll(d, arr, env, pairs, before);
  }

  lemma AddsAll(d: State, arr: Command, env: Env, pairs: seq<Pair>, before: map<string, Score>)
    requires pairs != [] && HasPairs(arr, env, 2, pairs) && AllParse(pairs) && HoldsSet(d, Arg(arr, 1), before)
    ensures var e := ExecZADD(d, arr, env);
            && Stores(d, e.d, Arg(arr, 1), AddPairs(before, pairs))
            && e.replies == [Integer(Grown(before, pairs))] && e.persisted == [arr]
  {
    LoopStores(d, Arg(arr, 1), arr, 2, env, 0, before, pairs);
    LoopCounts(d, Arg(arr, 1), arr, 2, env, 0, before, pairs);
  }

  /** On another type it changes nothing, answers 0, and is logged all the same. */
  lemma ZAddOtherType(d: State, c: Conn, arr: Command, env: Env, pairs: seq<Pair>)
    requires Sends(d, c, arr, "ZADD") && pairs != [] && HasPairs(arr, env, 2, pairs) && AllParse(pairs)
    requires Arg(arr, 1) in d.cache && !d.cache[Arg(arr, 1)].ZSet?
    ensures ServeFor(d, c, arr, env) == Effect(d, [arr], [Integer(0)])
  {
    ServeZADD(d, c, arr, env);
    NothingAdded(d, Arg(arr, 1), arr, 2, env, 0, pairs);
  }

  lemma {:induction false} NothingAdded(d: State, key: string, arr: Command, i: nat, env: Env, n: int, pairs: seq<Pair>)
    requires i <= |arr| && (|arr| - i) % 2 == 0 && HasPairs(arr, env, i, pairs) && AllParse(pairs)
    requires key in d.cache && !d.cache[key].ZSet?
    ensures ZAddFrom(d, key, arr, i, env, n) == (d, Some(n))
    decreases |pairs|
  {
    if pairs != [] {
      assert pairs[0] == PairAt(arr, env, i + 2 * 0);
      TailPairs(arr, env, i, pairs);
      LoopUnfolds(d, key, arr, i, env, n, pairs[0].1.value, pairs[0].0);
      NothingAdded(d, key, arr, i + 2, env, n, pairs[1..]);
    }
  }

  // ---- ZREM -----------------------------------------------------------------------------------

  predicate MentionsFrom(arr: Command, i: int, m: string) { exists j :: i <= j < |arr| && 0 <= j && arr[j] == Str(m) }

  lemma {:induction false} StringsMention(arr: Command, i: nat, m: string)
    requires i <= |arr|
    ensures m in StringsFrom(arr, i) <==> MentionsFrom(arr, i, m)
    decreases |arr| - i
  {
    if i < |arr| {
      StringsMention(arr, i + 1, m);
      MentionsNext(arr, i, m);
    }
  }

  lemma MentionsNext(arr: Command, i: nat, m: string)
    requires i < |arr|
    ensures MentionsFrom(arr, i, m) <==> arr[i] == Str(m) || MentionsFrom(arr, i + 1, m)
  {
  }

  /** The members that are not mentioned stay, with their scores. */
  ghost predicate Without(before: map<string, Score>, after: map<string, Score>, arr: Command) {
    forall m :: Lookup(after, m) == if MentionsFrom(arr, 2, m) then None else Lookup(before, m)
  }

  lemma RemovedIsWithout(before: map<string, Score>, arr: Command)
    requires 2 <= |arr|
    ensures var gone := Removed(before, StringsFrom(arr, 2));
            Without(before, before - gone, arr) && |gone| == |before| - |before - gone|
  {
    var gone := Removed(before, StringsFrom(arr, 2));
    forall m ensures Lookup(before - gone, m) == if MentionsFrom(arr, 2, m) then None else Lookup(before, m) {
      StringsMention(arr, 2, m);
    }
    assert (before - gone).Keys == before.Keys - gone && gone <= before.Keys;
    assert |(before - gone).Keys| == |before - gone| && |before.Keys| == |before|;
  }

  /** ZREM takes out exactly the members mentioned and answers how many there were; a set without
      members goes. It is never logged. */
  lemma ZRemTakesOut(d: State, c: Conn, arr: Command, env: Env, before: map<string, Score>)
    returns (after: map<string, Score>, gone: int)
    requires Sends(d, c, arr, "ZREM") && |arr| >= 3
    requires Lookup(d.cache, Arg(arr, 1)) == Some(ZSet(before))
    ensures Without(before, after, arr) && gone == |before| - |after|
    ensures var e, key := ServeFor(d, c, arr, env), Arg(arr, 1);
            && e.d.cache == (if after == map[] then d.cache - {key} else d.cache[key := ZSet(after)])
            && e.d.expiry == d.expiry && e.replies == [Integer(gone)] && e.persisted == []
  {
    ServeZREM(d, c, arr, env);
    RemovedIsWithout(before, arr);
    var members := Removed(before, StringsFrom(arr, 2));
    after, gone := before - members, |members|;
    SetWithout(d, Arg(arr, 1), StringsFrom(arr, 2), before, members, after);
  }

  lemma SetWithout(d: State, key: string, members: seq<string>, before: map<string, Score>, gone: set<string>,
                   after: map<string, Score>)
    requires Lookup(d.cache, key) == Some(ZSet(before)) && gone == Removed(before, members) && after == before - gone
    ensures var (d', n) := ZRem(d, key, members);
            && d'.cache == (if after == map[] then d.cache - {key} else d.cache[key := ZSet(after)])
            && d'.expiry == d.expiry && n == |gone|
  {
  }

  lemma ZRemElse(d: State, c: Conn, arr: Command, env: Env)
    requires Sends(d, c, arr, "ZREM") && |arr| >= 3
    requires Arg(arr, 1) !in d.cache || !d.cache[Arg(arr, 1)].ZSet?
    ensures ServeFor(d, c, arr, env) == Effect(d, [], [Integer(0)])
  {
    ServeZREM(d, c, arr, env);
  }

  // ---- Which way round ----------------------------------------------------------------------------

  /** a is a proper beginning of b, or has the smaller character where they first differ. */
  ghost predicate Lexicographic(a: string, b: string) { exists n: nat :: DiffersAt(a, b, n) }

  predicate DiffersAt(a: string, b: string, n: nat) {
    && n <= |a| && n < |b| && a[..n] == b[..n] && (n < |a| ==> a[n] < b[n])
  }

  lemma {:induction false} StringLessIs(a: string, b: string)
    ensures StringLess(a, b) <==> Lexicographic(a, b)
  {
    if a != [] && b != [] && a[0] == b[0] {
      StringLessIs(a[1..], b[1..]);
      if n: nat :| DiffersAt(a[1..], b[1..], n) {
        assert a[..n + 1] == [a[0]] + a[1..][..n] && b[..n + 1] == [b[0]] + b[1..][..n];
        assert DiffersAt(a, b, n + 1);
      }
      if n: nat :| DiffersAt(a, b, n) {
        assert n > 0 && a[1..][..n - 1] == a[..n][1..] && b[1..][..n - 1] == b[..n][1..];
        assert DiffersAt(a[1..], b[1..], n - 1);
      }
    } else {
      if b != [] && (a == [] || a[0] < b[0]) { assert DiffersAt(a, b, 0); }
      forall n: nat ensures DiffersAt(a, b, n) ==> n == 0 { SameFirst(a, b, n); }
    }
  }

  lemma SameFirst(a: string, b: string, n: nat)
    ensures DiffersAt(a, b, n) && n > 0 ==> a != [] && a[0] == b[0]
  {
    if DiffersAt(a, b, n) && n > 0 { assert a[..n][0] == b[..n][0]; }
  }

  /** Scores rise, from minus to plus infinity; members with one score are in lexicographic order. */
  lemma BeforeIs(a: Node, b: Node)
    ensures a.score.Finite? && b.score.Finite? ==>
              (Before(a, b) <==> a.score.r < b.score.r || (a.score.r == b.score.r && Lexicographic(a.member, b.member)))
    ensures a.score.NegInf? && (b.score.Finite? || b.score.PosInf?) ==> Before(a, b)
    ensures a.score.Finite? && b.score.PosInf? ==> Before(a, b)
    ensures a.score == b.score && !a.score.NaN? ==> (Before(a, b) <==> Lexicographic(a.member, b.member))
  {
    StringLessIs(a.member, b.member);
  }

  // ---- Which interval -----------------------------------------------------------------------------

  function Members(nodes: seq<Node>): (s: seq<string>)
    ensures |s| == |nodes| && forall i :: 0 <= i < |s| ==> s[i] == nodes[i].member
  {
    seq(|nodes|, i requires 0 <= i < |nodes| => nodes[i].member)
  }

  /** Places a to b, each counted from the front or, negative, from the end: ZRANGE gives the members
      from a to b, both among them. 0 and -1 give all. */
  lemma RangeIs(result: seq<string>, first: nat, nodes: seq<Node>, start: int, stop: int, a: nat, b: nat)
    requires IsInterval(result, first, nodes, start, stop) && a <= b < |nodes|
    requires (start == a || start == a - |nodes|) && (stop == b || stop == b - |nodes|)
    ensures result == Members(nodes)[a..b + 1]
  {
    assert InInterval(a, start, stop, |nodes|) && InInterval(b, start, stop, |nodes|);
    if a > 0 { assert !InInterval(a - 1, start, stop, |nodes|); }
    assert !InInterval(b + 1, start, stop, |nodes|);
    FirstIs(result, first, nodes, start, stop, a, b);
  }

  lemma FirstIs(result: seq<string>, first: nat, nodes: seq<Node>, start: int, stop: int, a: nat, b: nat)
    requires IsInterval(result, first, nodes, start, stop) && a <= b < |nodes|
    requires forall p :: InInterval(p, start, stop, |nodes|) <==> a <= p <= b
    ensures result == Members(nodes)[a..b + 1]
  {
    assert first <= a < first + |result| by { assert InInterval(a, start, stop, |nodes|); }
    assert InInterval(first, start, stop, |nodes|);
    var last := first + |result| - 1;
    assert InInterval(last, start, stop, |nodes|) && InInterval(b, start, stop, |nodes|);
  }

  /** A start before the first place or a stop after the last one is that place. */
  lemma RangeClamps(result: seq<string>, first: nat, nodes: seq<Node>, start: int, stop: int)
    requires IsInterval(result, first, nodes, start, stop)
    ensures start <= -|nodes| && stop >= |nodes| ==> result == Members(nodes)
    ensures start >= |nodes| || stop < -|nodes| ==> result == []
  {
    if |nodes| > 0 && start <= -|nodes| && stop >= |nodes| {
      FirstIs(result, first, nodes, start, stop, 0, |nodes| - 1);
    }
    if result != [] { assert InInterval(first, start, stop, |nodes|); }
  }
}
