/** LPOP and RPOP read the list in one section and store what is left in a later one. What happens
    to the key in between is overwritten. */
module PopWindow {
  import opened StreamIds
  import opened StoreModel
  import opened Sections
  import opened Watching
  import opened Commands

  /** The reply of a pop and, if something is taken, what stays in the list. */
  function Take(left: bool, value: Option<Datum>, count: int): (Reply, Option<seq<string>>) {
    if left then TakeFront(value, count) else TakeBack(value)
  }

  function Stored(d: State, key: string, rest: Option<seq<string>>): State {
    if rest.Some? then SetValue(d, key, List(rest.value)) else d
  }

  /** A pop with the sections of others between its two. */
  function SplitPop(d: State, left: bool, key: string, count: int, now: int, mid: seq<Section>): (State, Reply) {
    var (d1, value) := Get(d, key, now);
    var (reply, rest) := Take(left, value, count);
    (Stored(Run(d1, mid), key, rest), reply)
  }

  /** Without sections in between it is the pop of the command. */
  lemma SplitPopIsPop(d: State, left: bool, key: string, count: int, now: int)
    ensures SplitPop(d, left, key, count, now, []) == if left then LPop(d, key, count, now) else RPop(d, key, now)
  {
  }

  /** What a pop takes and what it leaves make up the list. */
  lemma TakeTells(left: bool, a: Option<Datum>, b: Option<Datum>, count: int)
    requires Take(left, a, count).1.Some? && Take(left, a, count) == Take(left, b, count)
    ensures a == b
  {
    if left {
      FrontTells(a.value.items, b.value.items, count);
    } else {
      var x, y := a.value.items, b.value.items;
      assert x == x[..|x| - 1] + [x[|x| - 1]] && y == y[..|y| - 1] + [y[|y| - 1]];
    }
  }

  lemma FrontTells(x: seq<string>, y: seq<string>, count: int)
    requires count > 0 && x != [] && y != []
    requires TakeFront(Some(List(x)), count) == TakeFront(Some(List(y)), count)
    ensures x == y
  {
    var n, m := if count > |x| then |x| else count, if count > |y| then |y| else count;
    assert x == x[..n] + x[n..] && y == y[..m] + y[m..];
    if n == 1 { assert x[..n] == [x[0]] && y[..m] == [y[0]]; }
  }

  lemma StoredTells(d: State, key: string, a: Option<seq<string>>, b: Option<seq<string>>)
    requires a.Some? && b.Some? && Stored(d, key, a) == Stored(d, key, b)
    ensures a == b
  {
    assert Stored(d, key, a).cache[key] == List(a.value) && Stored(d, key, b).cache[key] == List(b.value);
  }

  /** A pop that takes something answers and leaves what a pop at the moment of its second section
      would, if and only if the key holds then the value it read. */
  lemma SplitPopExactly(d: State, left: bool, key: string, count: int, now: int, mid: seq<Section>)
    requires var value := Get(d, key, now).1; Take(left, value, count).1.Some?
    ensures var (d1, value) := Get(d, key, now);
            var d2 := Run(d1, mid);
            var (reply2, rest2) := Take(left, Lookup(d2.cache, key), count);
            SplitPop(d, left, key, count, now, mid) == (Stored(d2, key, rest2), reply2)
            <==> Lookup(d2.cache, key) == value
  {
    var (d1, value) := Get(d, key, now);
    var d2 := Run(d1, mid);
    var (reply, rest) := Take(left, value, count);
    var (reply2, rest2) := Take(left, Lookup(d2.cache, key), count);
    if (Stored(d2, key, rest), reply) == (Stored(d2, key, rest2), reply2) {
      ReplyTells(left, value, Lookup(d2.cache, key), count);
      StoredTells(d2, key, rest, rest2);
      TakeTells(left, value, Lookup(d2.cache, key), count);
    }
  }

  /** Only a pop that takes something answers with values. */
  lemma ReplyTells(left: bool, a: Option<Datum>, b: Option<Datum>, count: int)
    requires Take(left, a, count).1.Some? && Take(left, a, count).0 == Take(left, b, count).0
    ensures Take(left, b, count).1.Some?
  {
  }

  /** So it is undisturbed when nobody writes or drops the key in between. */
  lemma UndisturbedPop(d: State, left: bool, key: string, count: int, now: int, mid: seq<Section>)
    requires NoEmptyZSet(d) && AllAllowed(mid) && Untouched(Get(d, key, now).0, mid, key)
    requires Take(left, Get(d, key, now).1, count).1.Some?
    ensures var d2 := Run(Get(d, key, now).0, mid);
            var (reply2, rest2) := Take(left, Lookup(d2.cache, key), count);
            SplitPop(d, left, key, count, now, mid) == (Stored(d2, key, rest2), reply2)
  {
    UntouchedKeeps(d, mid, key);
    SplitPopExactly(d, left, key, count, now, mid);
  }

  /** A push as the last touch in between is lost: the list left is the one without its values. */
  lemma PushIsLost(d: State, left: bool, key: string, count: int, now: int, before: seq<Section>, values: seq<string>)
    requires NoEmptyZSet(d) && AllAllowed(before) && Untouched(Get(d, key, now).0, before, key)
    requires Take(left, Get(d, key, now).1, count).1.Some?
    ensures var (d1, value) := Get(d, key, now);
            var mid := before + [DoRPush(key, values)];
            && ListAt(Run(d1, mid), key) == value.value.items + values
            && ListAt(SplitPop(d, left, key, count, now, mid).0, key) == Take(left, value, count).1.value
  {
    var (d1, value) := Get(d, key, now);
    var push := DoRPush(key, values);
    UntouchedKeeps(d1, before, key);
    Sections.RunAppend(d1, before, [push]);
    OneSection(Run(d1, before), push);
  }

  lemma OneSection(d: State, s: Section)
    ensures Run(d, [s]) == Apply(d, s)
  {
    assert [s][1..] == [];
  }
}
