/** A client that asked for `$` everywhere and was woken gets an entry, whatever the run, if and
    only if its request names no key twice. */
module WokenClients {
  import Strconv
  import opened StreamIds
  import opened StoreModel
  import opened Sections
  import opened Watching
  import opened Streams
  import opened BlockingRead
  import opened RepeatedKeys

  // ---- Runs by single steps -----------------------------------------------------------------

  lemma {:induction false} RunSnoc(w: World, events: seq<BlockingRead.Event>, e: BlockingRead.Event)
    requires AllPermitted(w, events) && Permitted(RunEvents(w, events), e)
    ensures AllPermitted(w, events + [e]) && RunEvents(w, events + [e]) == Step(RunEvents(w, events), e)
    decreases |events|
  {
    if events == [] {
      assert events + [e] == [e] && [e][1..] == [];
    } else {
      assert (events + [e])[1..] == events[1..] + [e];
      RunSnoc(Step(w, events[0]), events[1..], e);
    }
  }

  /** What every permitted step keeps. */
  ghost predicate Good(w0: World, w: World) { Reaches(w0, w) && Inv(w) }

  lemma GoodStep(w0: World, w: World, e: BlockingRead.Event, w': World)
    requires Good(w0, w) && Permitted(w, e) && w' == Step(w, e)
    ensures Good(w0, w')
  {
    var events: seq<BlockingRead.Event> :| AllPermitted(w0, events) && w == RunEvents(w0, events);
    RunSnoc(w0, events, e);
    StepKeeps(w, e);
    assert AllPermitted(w0, events + [e]) && w' == RunEvents(w0, events + [e]);
  }

  // ---- Nothing to read ------------------------------------------------------------------------

  /** At the last place of every key the noted top is the present one. */
  ghost predicate UpToDate(d: State, r: Client) {
    forall l: nat :: LastOf(r.keys, l) && l < |r.marks| ==> r.marks[l] == |StreamAt(d, r.keys[l])|
  }

  lemma StaysUpToDate(d: State, d': State, r: Client, r': Client)
    requires UpToDate(d, r) && r'.keys == r.keys && r'.marks == r.marks
    requires forall l: nat :: LastOf(r.keys, l) && l < |r.marks| ==> StreamAt(d', r.keys[l]) == StreamAt(d, r.keys[l])
    ensures UpToDate(d', r')
  {
  }

  lemma OneMoreUpToDate(d: State, d': State, r: Client, r': Client)
    requires UpToDate(d, r) && r'.keys == r.keys && d'.cache == d.cache && |r.marks| < |r.keys|
    requires r'.marks == r.marks + [|StreamAt(d, r.keys[|r.marks|])|]
    ensures UpToDate(d', r')
  {
    assert forall k :: StreamAt(d', k) == StreamAt(d, k);
  }

  /** Every key is answered at its last place. */
  lemma NothingAtLast(d: State, keys: seq<string>, ids: seq<string>)
    requires |keys| == |ids|
    requires forall j :: 0 <= j < |keys| ==> ReadKey(d, keys[j], ids[j]).Entries?
    requires forall l: nat :: LastOf(keys, l) ==> ReadKey(d, keys[l], ids[l]).found == []
    ensures NothingNew(XRead(d, keys, ids), keys)
  {
    XReadSucceeds(d, keys, ids);
    var data := XRead(d, keys, ids);
    forall j | 0 <= j < |keys| ensures !(keys[j] in data.found && data.found[keys[j]] != []) {
      var l := LastPlace(keys, j);
      XReadAt(d, keys, ids, l);
    }
  }

  lemma NothingToRead(d: State, r: Client)
    requires StreamsAt(d, r.keys) && Marked(d, r) && |r.marks| == |r.keys| && DollarOnly(r.raw) && UpToDate(d, r)
    ensures NothingNew(ReadNow(d, r), r.keys)
  {
    var ids := Ids(r.raw, r.tops);
    forall j | 0 <= j < |r.keys|
      ensures ReadKey(d, r.keys[j], ids[j]) == Entries(StreamAt(d, r.keys[j])[r.marks[j]..])
    {
      assert r.keys[j] in r.keys;
      ReadsSinceMark(d, r.keys[j], r.marks[j], r.tops[j]);
    }
    NothingAtLast(d, r.keys, ids);
  }

  // ---- The client's own steps -------------------------------------------------------------------

  ghost predicate Asks(w: World, keys: seq<string>, n: nat) {
    && w.r.keys == keys && DollarOnly(w.r.raw) && w.r.phase.Registering? && |w.r.marks| == |w.r.tops| == n <= |keys|
    && UpToDate(w.d, w.r)
  }

  lemma AskOne(w: World, keys: seq<string>, n: nat, w': World)
    requires Inv(w) && Asks(w, keys, n) && n < |keys| && w' == AdvanceClient(w)
    ensures Asks(w', keys, n + 1) && w'.d.cache == w.d.cache && w'.d.mail == w.d.mail && w'.r.ch == w.r.ch
  {
    OneMoreUpToDate(w.d, w'.d, w.r, w'.r);
  }

  lemma {:induction false} AskUpTo(w0: World, w: World, keys: seq<string>, n: nat, m: nat) returns (v: World)
    requires Good(w0, w) && Asks(w, keys, n) && n <= m <= |keys|
    ensures Good(w0, v) && Asks(v, keys, m) && v.d.cache == w.d.cache && v.d.mail == w.d.mail && v.r.ch == w.r.ch
    decreases m - n
  {
    v := w;
    if n < m {
      var w' := AdvanceClient(w);
      AskOne(w, keys, n, w');
      GoodStep(w0, w, Advance, w');
      v := AskUpTo(w0, w', keys, n + 1, m);
    }
  }

  /** The client leaves its keys one by one. */
  ghost predicate Leaves(w: World, keys: seq<string>, left: seq<string>) {
    && w.r.keys == keys && DollarOnly(w.r.raw) && |w.r.marks| == |keys|
    && w.r.phase == Removing(left, Reread) && UpToDate(w.d, w.r)
  }

  lemma LeaveOne(w: World, keys: seq<string>, left: seq<string>, w': World)
    requires Leaves(w, keys, left) && left != [] && w' == AdvanceClient(w)
    ensures Leaves(w', keys, left[1..])
  {
    StaysUpToDate(w.d, w'.d, w.r, w'.r);
  }

  lemma {:induction false} LeaveAll(w0: World, w: World, keys: seq<string>, left: seq<string>) returns (v: World)
    requires Good(w0, w) && Leaves(w, keys, left)
    ensures Good(w0, v) && Leaves(v, keys, [])
    decreases |left|
  {
    v := w;
    if left != [] {
      var w' := AdvanceClient(w);
      LeaveOne(w, keys, left, w');
      GoodStep(w0, w, Advance, w');
      v := LeaveAll(w0, w', keys, left[1..]);
    }
  }

  /** With a token in its channel and nothing to read the client waits, is woken, and leaves. */
  lemma WokenInVain(w0: World, w: World, keys: seq<string>) returns (v: World)
    requires Good(w0, w) && Asks(w, keys, |keys|) && Mail(w.d, w.r.ch) != []
    ensures Good(w0, v) && Leaves(v, keys, [])
  {
    var w1 := FirstRead(w0, w, keys);
    var w2 := Wake(w0, w1, keys);
    v := LeaveAll(w0, w2, keys, keys);
  }

  lemma FirstRead(w0: World, w: World, keys: seq<string>) returns (w1: World)
    requires Good(w0, w) && Asks(w, keys, |keys|)
    ensures Good(w0, w1) && w1 == w.(r := w.r.(phase := Waiting))
  {
    NothingToRead(w.d, w.r);
    w1 := AdvanceClient(w);
    GoodStep(w0, w, Advance, w1);
  }

  function Woke(w: World): World { World(ReceiveValue(w.d, w.r.ch), w.r.(phase := Removing(w.r.keys, Reread))) }

  lemma WokeIs(w: World)
    requires w.r.phase == Waiting && Mail(w.d, w.r.ch) != []
    ensures Step(w, Advance) == Woke(w) && Woke(w).d.cache == w.d.cache
  {
  }

  lemma Wake(w0: World, w1: World, keys: seq<string>) returns (w2: World)
    requires Good(w0, w1) && w1.r.phase == Waiting && Mail(w1.d, w1.r.ch) != []
    requires w1.r.keys == keys && DollarOnly(w1.r.raw) && UpToDate(w1.d, w1.r) && |w1.r.marks| == |keys|
    ensures Good(w0, w2) && Leaves(w2, keys, keys)
  {
    w2 := Woke(w1);
    WokeIs(w1);
    GoodStep(w0, w1, Advance, w2);
    WokeLeaves(w1, keys);
  }

  lemma WokeLeaves(w1: World, keys: seq<string>)
    requires w1.r.keys == keys && DollarOnly(w1.r.raw) && UpToDate(w1.d, w1.r) && |w1.r.marks| == |keys|
    ensures Leaves(Woke(w1), keys, keys)
  {
    StaysUpToDate(w1.d, Woke(w1).d, w1.r, Woke(w1).r);
  }

  // ---- An XADD between two registrations of one key -----------------------------------------------

  const FIRST: string := FormatID(ID(1, 1))

  function Adding(key: string): Section { DoXAdd(key, FIRST, [], 0) }

  lemma FirstIsAdded(d: State, key: string)
    requires d.cache == map[]
    ensures ChooseID(d, key, FIRST, 0) == Added(FIRST) && !Overflows(d, key, FIRST, 0)
    ensures Apply(d, Adding(key)).cache == map[key := Stream([Entry(FIRST, [])])]
  {
    FirstIsChosen(d, key);
    XAddFrame(d, key, FIRST, [], 0);
    assert StreamAt(d, key) + [Entry(FIRST, [])] == [Entry(FIRST, [])];
    assert d.cache[key := Stream([Entry(FIRST, [])])] == map[key := Stream([Entry(FIRST, [])])];
  }

  lemma FirstIsChosen(d: State, key: string)
    requires d.cache == map[]
    ensures ChooseID(d, key, FIRST, 0) == Added(FIRST) && !Overflows(d, key, FIRST, 0)
  {
    FirstIsParsed();
    assert StreamAt(d, key) == [] && LastID([]) == ZERO;
  }

  lemma FirstIsParsed()
    ensures Requested(FIRST, 0) == Some((ID(1, 1), false))
  {
    SplitFormatted(ID(1, 1));
    AtoiOne();
  }

  lemma AtoiOne()
    ensures Strconv.Atoi(Strconv.FormatInt(1)) == Strconv.Parsed(1)
    ensures FIRST != "*" && Strconv.FormatInt(1) != "*"
  {
    Strconv.AtoiFormat(1);
    assert |FIRST| >= 2;
  }

  lemma AddingPermitted(w: World, key: string)
    requires w.d.cache == map[]
    ensures Permitted(w, BlockingRead.Event.Server(Adding(key)))
  {
    FirstIsAdded(w.d, key);
    forall k | k in w.r.keys ensures OnlyXAdd(w.d, [Adding(key)], k) {
      assert [Adding(key)][1..] == [];
    }
  }

  /** It sends the client a token, and is news only where the key is registered already. */
  lemma AddingKeeps(w0: World, w: World, keys: seq<string>, i: nat) returns (w': World)
    requires Good(w0, w) && Asks(w, keys, i + 1) && w.d.cache == map[] && !LastOf(keys, i)
    ensures Good(w0, w') && Asks(w', keys, i + 1) && Mail(w'.d, w'.r.ch) != []
  {
    w' := Step(w, BlockingRead.Event.Server(Adding(keys[i])));
    AddingPermitted(w, keys[i]);
    GoodStep(w0, w, BlockingRead.Event.Server(Adding(keys[i])), w');
    AddingTokens(w, keys, i);
    NotNews(w, keys, i, w'.d);
    StaysUpToDate(w.d, w'.d, w.r, w'.r);
  }

  lemma NotNews(w: World, keys: seq<string>, i: nat, d': State)
    requires w.d.cache == map[] && i < |keys| && !LastOf(keys, i) && d' == Apply(w.d, Adding(keys[i]))
    ensures forall l: nat :: LastOf(keys, l) && l <= i ==> StreamAt(d', keys[l]) == StreamAt(w.d, keys[l])
  {
    FirstIsAdded(w.d, keys[i]);
    forall l: nat | LastOf(keys, l) && l <= i ensures StreamAt(d', keys[l]) == StreamAt(w.d, keys[l]) {
      LastElsewhere(keys, i, l);
    }
  }

  lemma LastElsewhere(keys: seq<string>, i: nat, l: nat)
    requires i < |keys| && !LastOf(keys, i) && LastOf(keys, l) && l <= i
    ensures keys[l] != keys[i]
  {
    if l < i { assert keys[l + 1..][i - l - 1] == keys[i]; }
  }

  lemma AddingTokens(w: World, keys: seq<string>, i: nat)
    requires Inv(w) && Asks(w, keys, i + 1) && w.d.cache == map[]
    ensures Mail(Apply(w.d, Adding(keys[i])), w.r.ch) != []
  {
    assert Pending(w.d, w.r, i);
    FirstIsAdded(w.d, keys[i]);
    SectionRespects(w.d, Adding(keys[i]), w.r.ch, keys[i]);
  }

  // ---- The theorem ----------------------------------------------------------------------------------

  predicate Dollars(w: World, keys: seq<string>) { w.r.keys == keys && DollarOnly(w.r.raw) }

  /** The woken client, done with leaving its keys, answers with an entry. */
  predicate GetsSome(v: World) {
    var answer := AdvanceClient(v).r.phase;
    answer.Replied? && answer.result.Entries? && HasAny(answer.result.found, v.r.keys)
  }

  ghost predicate AlwaysGetsSome(keys: seq<string>) {
    forall w: World, v: World ::
      New(w) && Dollars(w, keys) && Reaches(w, v) && v.r.phase == Removing([], Reread) ==> GetsSome(v)
  }

  /** The client that is woken for nothing: one stream grows between two registrations of its key. */
  lemma WokenForNothing(keys: seq<string>, i: nat) returns (w: World, v: World)
    requires i < |keys| && !LastOf(keys, i)
    ensures New(w) && Dollars(w, keys) && Reaches(w, v) && v.r.phase == Removing([], Reread) && !GetsSome(v)
  {
    w := World(EMPTY, Client(keys, seq(|keys|, _ => "$"), 0, 0, [], [], Registering));
    StartInv(w);
    ReachesItself(w);
    assert Asks(w, keys, 0);
    var w1 := AskUpTo(w, w, keys, 0, i + 1);
    var w2 := AddingKeeps(w, w1, keys, i);
    var w3 := AskUpTo(w, w2, keys, i + 1, |keys|);
    v := WokenInVain(w, w3, keys);
    NothingToRead(v.d, v.r);
  }

  lemma {:induction false} KeepsRequest(w: World, events: seq<BlockingRead.Event>)
    ensures RunEvents(w, events).r.keys == w.r.keys && RunEvents(w, events).r.raw == w.r.raw
    decreases |events|
  {
    if events != [] { KeepsRequest(Step(w, events[0]), events[1..]); }
  }

  lemma DistinctGetsSome(w: World, v: World, keys: seq<string>)
    requires BlockingRead.Distinct(keys) && New(w) && Dollars(w, keys) && Reaches(w, v)
    requires v.r.phase == Removing([], Reread)
    ensures GetsSome(v)
  {
    var events: seq<BlockingRead.Event> :| AllPermitted(w, events) && v == RunEvents(w, events);
    KeepsRequest(w, events);
    WokenClientGetsNew(w, events);
  }

  /** Over all stores and runs: the woken client always gets an entry if and only if its request
      names no key twice. */
  lemma WokenExactly(keys: seq<string>)
    ensures AlwaysGetsSome(keys) <==> BlockingRead.Distinct(keys)
  {
    if BlockingRead.Distinct(keys) {
      forall w: World, v: World
        | New(w) && Dollars(w, keys) && Reaches(w, v) && v.r.phase == Removing([], Reread)
        ensures GetsSome(v)
      {
        DistinctGetsSome(w, v, keys);
      }
    } else {
      var i, j :| 0 <= i < j < |keys| && keys[i] == keys[j];
      assert keys[i + 1..][j - i - 1] == keys[i];
      var w, v := WokenForNothing(keys, i);
    }
  }
}
