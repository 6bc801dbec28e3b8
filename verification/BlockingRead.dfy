/** A blocking XREAD among arbitrary other activity: the client registers with each key, reads
    once, and waits for a token only if that read found nothing. No wake-up is lost. */
module BlockingRead {
  import opened StreamIds
  import opened StoreModel
  import opened Sections
  import opened Watching
  import opened Streams

  type Data = ReadResult<map<string, seq<Entry>>>

  datatype Next = Reread | Null | Fail(error: Data)

  datatype Phase =
    | Registering                            // one section per key, then the first read
    | Waiting
    | Removing(left: seq<string>, next: Next) // one section per key
    | Replied(result: Data)
    | NullReply

  /** `tops` are the IDs noted while registering; `marks`, for the proof, the lengths of the
      streams at those moments. */
  datatype Client = Client(
    keys: seq<string>,
    raw: seq<string>,
    ch: Chan,
    timeoutMs: int,
    tops: seq<string>,
    marks: seq<nat>,
    phase: Phase)

  datatype World = World(d: State, r: Client)

  datatype Event =
    | Server(s: Section)    // any critical section of anyone else
    | Deliver(ch: Chan)     // somebody else receives from a channel
    | Advance               // the client's next step
    | Timeout

  function Ids(raw: seq<string>, tops: seq<string>): (ids: seq<string>)
    requires |raw| == |tops|
    ensures |ids| == |raw| && forall i :: 0 <= i < |ids| ==> ids[i] == if raw[i] == "$" then tops[i] else raw[i]
  {
    seq(|raw|, i requires 0 <= i < |raw| => if raw[i] == "$" then tops[i] else raw[i])
  }

  function ReadNow(d: State, r: Client): Data {
    if |r.tops| == |r.raw| == |r.keys| then XRead(d, r.keys, Ids(r.raw, r.tops)) else BadIDError
  }

  predicate HasAny(found: map<string, seq<Entry>>, keys: seq<string>) {
    exists i :: 0 <= i < |keys| && keys[i] in found && found[keys[i]] != []
  }

  function AfterFirstRead(data: Data, keys: seq<string>): Phase {
    if !data.Entries? then Removing(keys, Fail(data))
    else if HasAny(data.found, keys) then Replied(data)
    else Waiting
  }

  function Finish(d: State, r: Client, next: Next): Phase {
    match next
    case Reread => Replied(ReadNow(d, r))
    case Null => NullReply
    case Fail(error) => Replied(error)
  }

  function AdvanceClient(w: World): World {
    var d, r := w.d, w.r;
    match r.phase
    case Registering =>
      if |r.tops| < |r.keys| then
        var key := r.keys[|r.tops|];
        var (d', top) := Register(d, key, r.ch);
        World(d', r.(tops := r.tops + [top], marks := r.marks + [|StreamAt(d, key)|]))
      else World(d, r.(phase := AfterFirstRead(ReadNow(d, r), r.keys)))
    case Waiting =>
      if Mail(d, r.ch) == [] then w
      else World(ReceiveValue(d, r.ch), r.(phase := Removing(r.keys, Reread)))
    case Removing(left, next) =>
      if left == [] then World(d, r.(phase := Finish(d, r, next)))
      else World(CleanUpWaiter(d, left[0], r.ch), r.(phase := Removing(left[1..], next)))
    case _ => w
  }

  function Step(w: World, e: Event): World {
    match e
    case Server(s) => w.(d := Apply(w.d, s))
    case Deliver(ch) => w.(d := ReceiveValue(w.d, ch))
    case Advance => AdvanceClient(w)
    case Timeout =>
      if w.r.phase == Waiting && w.r.timeoutMs != 0 then w.(r := w.r.(phase := Removing(w.r.keys, Null))) else w
  }

  function RunEvents(w: World, events: seq<Event>): World
    decreases |events|
  {
    if events == [] then w else RunEvents(Step(w, events[0]), events[1..])
  }

  // ---- What the environment may do ---------------------------------------------------------

  /** A section of somebody else: it does not use the client's channel, hands no list values
      over at the client's keys, and writes those keys only by XADD. */
  predicate Elsewhere(d: State, s: Section, keys: seq<string>, ch: Chan) {
    && Allowed(s)
    && (s.DoRegister? || s.DoBLPop? || s.DoCleanUpWaiter? ==> s.ch != ch)
    && (s.DoHandOff? ==> s.key !in keys)
    && forall k :: k in keys ==> OnlyXAdd(d, [s], k)
  }

  predicate Permitted(w: World, e: Event) {
    match e
    case Server(s) => Elsewhere(w.d, s, w.r.keys, w.r.ch)
    case Deliver(ch) => ch != w.r.ch
    case _ => true
  }

  predicate AllPermitted(w: World, events: seq<Event>)
    decreases |events|
  {
    events == [] || (Permitted(w, events[0]) && AllPermitted(Step(w, events[0]), events[1..]))
  }

  // ---- The invariant -----------------------------------------------------------------------

  ghost predicate StreamsAt(d: State, keys: seq<string>) {
    NoEmptyZSet(d) && forall k :: k in keys ==> StreamKey(d, k) && Ordered(StreamAt(d, k))
  }

  /** The ID noted for a stream of that length. */
  predicate Noted(entries: seq<Entry>, mark: nat, top: string) {
    mark <= |entries| && top == if mark == 0 then "0-0" else entries[mark - 1].id
  }

  predicate Grown(d: State, r: Client, i: nat) {
    i < |r.marks| && i < |r.keys| && r.marks[i] < |StreamAt(d, r.keys[i])|
  }

  predicate Pending(d: State, r: Client, i: nat)
    requires i < |r.marks| <= |r.keys|
  {
    Mail(d, r.ch) != [] || (r.ch in Waiters(d, r.keys[i]) && |StreamAt(d, r.keys[i])| == r.marks[i])
  }

  predicate Woken(r: Client) { r.phase.Removing? && r.phase.next == Reread }

  ghost predicate Marked(d: State, r: Client) {
    && |r.tops| == |r.marks| <= |r.keys| == |r.raw|
    && (!r.phase.Registering? ==> |r.marks| == |r.keys|)
    && forall i :: 0 <= i < |r.marks| ==> Noted(StreamAt(d, r.keys[i]), r.marks[i], r.tops[i])
  }

  /** The client's channel is known at its keys only, and a token means that a stream grew. */
  ghost predicate Tokens(d: State, r: Client)
    requires |r.marks| <= |r.keys|
  {
    && (forall k :: r.ch in Waiters(d, k) ==> k in r.keys[..|r.marks|])
    && (Mail(d, r.ch) != [] || Woken(r) ==> exists i :: Grown(d, r, i))
  }

  /** Until a token is received every key is watched or a token is there. */
  ghost predicate Armed(d: State, r: Client)
    requires |r.marks| <= |r.keys|
  {
    r.phase.Registering? || r.phase.Waiting? ==> forall i :: 0 <= i < |r.marks| ==> Pending(d, r, i)
  }

  predicate NothingNew(data: Data, keys: seq<string>) { data.Entries? && !HasAny(data.found, keys) }

  ghost predicate Inv(w: World) {
    && StreamsAt(w.d, w.r.keys) && Marked(w.d, w.r) && Tokens(w.d, w.r) && Armed(w.d, w.r)
    && (w.r.phase.Waiting? && Mail(w.d, w.r.ch) == [] ==> NothingNew(ReadNow(w.d, w.r), w.r.keys))
  }

  // ---- Waiters and tokens under sections of others --------------------------------------------

  /** How a section of others may treat a channel: it is added to no queue, loses no token, and
      is sent one exactly when it is taken out of a queue. */
  predicate Respects(d: State, d': State, ch: Chan, k: string) {
    && (ch in Waiters(d', k) ==> ch in Waiters(d, k))
    && (ch in Waiters(d, k) ==> ch in Waiters(d', k) || Mail(d', ch) != [])
    && (Mail(d, ch) != [] ==> Mail(d', ch) != [])
  }

  lemma {:induction false} HandOffRespects(d: State, key: string, values: seq<string>, rest: seq<string>,
                                           ch: Chan, k: string)
    requires ch !in Waiters(d, key)
    ensures var d' := HandOff(d, key, values, rest).0;
            Mail(d', ch) == Mail(d, ch) && (ch in Waiters(d', k) <==> ch in Waiters(d, k))
    decreases |values|
  {
    if values != [] {
      var queue := Waiters(d, key);
      if queue == [] {
        HandOffRespects(d, key, values[1..], rest + [values[0]], ch, k);
      } else {
        var d1 := Send(SetWaiters(d, key, queue[1..]), queue[0], values[0]);
        assert Waiters(d1, key) == queue[1..] && (k != key ==> Waiters(d1, k) == Waiters(d, k));
        HandOffRespects(d1, key, values[1..], rest, ch, k);
      }
    }
  }

  lemma {:induction false} NotifyMail(d: State, queue: seq<Chan>, id: string, ch: Chan)
    ensures ch !in queue ==> Mail(Notify(d, queue, id), ch) == Mail(d, ch)
    ensures ch in queue || Mail(d, ch) != [] ==> Mail(Notify(d, queue, id), ch) != []
    decreases |queue|
  {
    if queue != [] { NotifyMail(Send(d, queue[0], id), queue[1..], id, ch); }
  }

  lemma NotifyKeyRespects(d: State, key: string, id: string, ch: Chan, k: string)
    ensures Respects(d, NotifyKey(d, key, id), ch, k)
    ensures ch !in Waiters(d, key) ==> Mail(NotifyKey(d, key, id), ch) == Mail(d, ch)
    ensures ch in Waiters(d, key) ==> Mail(NotifyKey(d, key, id), ch) != []
  {
    NotifyMail(d, Waiters(d, key), id, ch);
    NotifyFrame(d, Waiters(d, key), id);
  }

  lemma {:induction false} RemoveFirstKeeps(queue: seq<Chan>, c: Chan, ch: Chan)
    requires c != ch
    ensures ch in RemoveFirst(queue, c) <==> ch in queue
  {
    if queue != [] { RemoveFirstKeeps(queue[1..], c, ch); }
  }

  lemma XAddRespects(d: State, key: string, id: string, fields: seq<string>, nowMs: int, ch: Chan, k: string)
    ensures var d', added := XAdd(d, key, id, fields, nowMs).0, ChooseID(d, key, id, nowMs).Added?;
            && Respects(d, d', ch, k)
            && (Mail(d', ch) != Mail(d, ch) ==> added && ch in Waiters(d, key))
            && (added && ch in Waiters(d, key) ==> Mail(d', ch) != [])
  {
    var r := ChooseID(d, key, id, nowMs);
    if r.Added? {
      NotifyKeyRespects(Put(d, key, Stream(StreamAt(d, key) + [Entry(r.id, fields)])), key, r.id, ch, k);
    }
  }

  lemma JoinRespects(d: State, key: string, c: Chan, ch: Chan, k: string)
    requires c != ch
    ensures var d' := SetWaiters(d, key, Waiters(d, key) + [c]);
            Mail(d', ch) == Mail(d, ch) && (ch in Waiters(d', k) <==> ch in Waiters(d, k))
  {
  }

  lemma LeaveRespects(d: State, key: string, c: Chan, ch: Chan, k: string)
    requires c != ch
    ensures var d' := CleanUpWaiter(d, key, c);
            Mail(d', ch) == Mail(d, ch) && (ch in Waiters(d', k) <==> ch in Waiters(d, k))
  {
    RemoveFirstKeeps(Waiters(d, key), c, ch);
  }

  predicate Queues(s: Section) {
    s.DoHandOff? || s.DoBLPop? || s.DoCleanUpWaiter? || s.DoXAdd? || s.DoRegister?
  }

  lemma QuietSection(d: State, s: Section)
    requires !Queues(s)
    ensures Apply(d, s).waiters == d.waiters && Apply(d, s).mail == d.mail
  {
    if IsData(s) { QuietData(d, s); } else if s.DoWatch? { WatchFrame(d, s.c, s.keys); }
  }

  lemma QuietData(d: State, s: Section)
    requires !Queues(s) && IsData(s)
    ensures Apply(d, s).waiters == d.waiters && Apply(d, s).mail == d.mail
  {
    match s
    case DoZAdd(key, score, member) => QuietZAdd(d, key, score, member);
    case DoZRem(key, members) => QuietZRem(d, key, members);
    case _ =>
  }

  lemma QuietZAdd(d: State, key: string, score: Score, member: string)
    ensures var d' := ZAdd(d, key, score, member).0; d'.waiters == d.waiters && d'.mail == d.mail
  {
  }

  lemma QuietZRem(d: State, key: string, members: seq<string>)
    ensures var d' := ZRem(d, key, members).0; d'.waiters == d.waiters && d'.mail == d.mail
  {
  }

  predicate Untouched(d: State, d': State, ch: Chan, k: string) {
    Mail(d', ch) == Mail(d, ch) && (ch in Waiters(d', k) <==> ch in Waiters(d, k))
  }

  lemma QueueRespects(d: State, s: Section, ch: Chan, k: string)
    requires s.DoRegister? || s.DoBLPop? || s.DoCleanUpWaiter?
    requires s.ch != ch
    ensures Untouched(d, Apply(d, s), ch, k)
  {
    match s
    case DoRegister(key, c) => JoinRespects(d, key, c, ch, k);
    case DoBLPop(key, c) => if ListAt(d, key) == [] { JoinRespects(d, key, c, ch, k); }
    case DoCleanUpWaiter(key, c) => LeaveRespects(d, key, c, ch, k);
  }

  lemma OtherRespects(d: State, s: Section, ch: Chan, k: string)
    requires !s.DoXAdd? && (s.DoHandOff? ==> ch !in Waiters(d, s.key))
    requires s.DoRegister? || s.DoBLPop? || s.DoCleanUpWaiter? ==> s.ch != ch
    ensures Untouched(d, Apply(d, s), ch, k)
  {
    if s.DoHandOff? { HandOffRespects(d, s.key, s.values, [], ch, k); }
    else if Queues(s) { QueueRespects(d, s, ch, k); }
    else { QuietSection(d, s); }
  }

  predicate TokenFor(d: State, s: Section, ch: Chan) {
    s.DoXAdd? && ch in Waiters(d, s.key) && Writes(d, s, s.key)
  }

  /** A section that is permitted respects the client's channel, which is sent a token exactly
      by an XADD at a key where it waits. */
  lemma SectionRespects(d: State, s: Section, ch: Chan, k: string)
    requires s.DoHandOff? ==> ch !in Waiters(d, s.key)
    requires s.DoRegister? || s.DoBLPop? || s.DoCleanUpWaiter? ==> s.ch != ch
    ensures Respects(d, Apply(d, s), ch, k)
    ensures Mail(Apply(d, s), ch) != Mail(d, ch) ==> TokenFor(d, s, ch)
    ensures TokenFor(d, s, ch) ==> Mail(Apply(d, s), ch) != []
  {
    if s.DoXAdd? { XAddRespects(d, s.key, s.id, s.fields, s.nowMs, ch, k); } else { OtherRespects(d, s, ch, k); }
  }

  // ---- Sections of others keep the invariant ---------------------------------------------------

  lemma KeyStep(d: State, s: Section, k: string)
    requires NoEmptyZSet(d) && StreamKey(d, k) && Ordered(StreamAt(d, k)) && OnlyXAdd(d, [s], k)
    ensures StreamAt(d, k) <= StreamAt(Apply(d, s), k)
    ensures Writes(d, s, k) ==> s.DoXAdd? && s.key == k && |StreamAt(d, k)| < |StreamAt(Apply(d, s), k)|
    ensures !Writes(d, s, k) ==> Lookup(Apply(d, s).cache, k) == Lookup(d.cache, k)
  {
    if Writes(d, s, k) {
      XAddFrame(d, k, s.id, s.fields, s.nowMs);
    } else {
      ValueStep(d, s, k);
    }
  }

  lemma SectionStreams(d: State, s: Section, keys: seq<string>, ch: Chan)
    requires StreamsAt(d, keys) && Elsewhere(d, s, keys, ch)
    ensures StreamsAt(Apply(d, s), keys)
    ensures forall k :: k in keys ==> StreamAt(d, k) <= StreamAt(Apply(d, s), k)
  {
    if keys == [] { NoEmptyZSetStep(d, s); } else { assert keys[0] in keys; }
    forall k | k in keys
      ensures NoEmptyZSet(Apply(d, s)) && StreamKey(Apply(d, s), k) && Ordered(StreamAt(Apply(d, s), k))
      ensures StreamAt(d, k) <= StreamAt(Apply(d, s), k)
    {
      StreamStep(d, s, k);
    }
  }

  /** Streams that only grow keep the marks, and what has grown stays so. */
  lemma GrowKeepsMarks(d: State, d': State, r: Client)
    requires Marked(d, r) && forall k :: k in r.keys ==> StreamAt(d, k) <= StreamAt(d', k)
    ensures Marked(d', r)
    ensures forall i :: Grown(d, r, i) ==> Grown(d', r, i)
  {
    forall i | 0 <= i < |r.marks| ensures StreamAt(d, r.keys[i]) <= StreamAt(d', r.keys[i]) {
      assert r.keys[i] in r.keys;
    }
  }

  lemma SectionTokens(d: State, s: Section, r: Client)
    requires StreamsAt(d, r.keys) && Elsewhere(d, s, r.keys, r.ch) && Marked(d, r) && Tokens(d, r)
    ensures Tokens(Apply(d, s), r)
  {
    var d' := Apply(d, s);
    SectionStreams(d, s, r.keys, r.ch);
    GrowKeepsMarks(d, d', r);
    HandOffElsewhere(d, s, r);
    forall k ensures r.ch in Waiters(d', k) ==> r.ch in Waiters(d, k) { SectionRespects(d, s, r.ch, k); }
    if (Mail(d', r.ch) != [] || Woken(r)) && Mail(d, r.ch) == [] && !Woken(r) {
      SectionRespects(d, s, r.ch, "");
      assert TokenFor(d, s, r.ch);
      var i :| 0 <= i < |r.marks| && r.keys[i] == s.key;
      KeyStep(d, s, r.keys[i]);
      assert Grown(d', r, i);
    }
  }

  lemma HandOffElsewhere(d: State, s: Section, r: Client)
    requires Elsewhere(d, s, r.keys, r.ch) && |r.marks| <= |r.keys| && Tokens(d, r)
    ensures s.DoHandOff? ==> r.ch !in Waiters(d, s.key)
  {
  }

  /** One key: still watched and unchanged, or a token is there. */
  lemma SectionPending(d: State, s: Section, r: Client, i: nat)
    requires i < |r.marks| <= |r.keys| && Pending(d, r, i)
    requires StreamsAt(d, r.keys) && Elsewhere(d, s, r.keys, r.ch) && Tokens(d, r)
    ensures Pending(Apply(d, s), r, i)
    ensures Mail(Apply(d, s), r.ch) == [] ==> Lookup(Apply(d, s).cache, r.keys[i]) == Lookup(d.cache, r.keys[i])
  {
    HandOffElsewhere(d, s, r);
    SectionRespects(d, s, r.ch, r.keys[i]);
    assert r.keys[i] in r.keys;
    KeyStep(d, s, r.keys[i]);
  }

  lemma {:induction false} XReadFrame(d: State, d': State, keys: seq<string>, ids: seq<string>)
    requires |keys| == |ids| && forall i :: 0 <= i < |keys| ==> Lookup(d'.cache, keys[i]) == Lookup(d.cache, keys[i])
    ensures XRead(d', keys, ids) == XRead(d, keys, ids)
    decreases |keys|
  {
    if keys != [] {
      var n := |keys| - 1;
      XReadFrame(d, d', keys[..n], ids[..n]);
      assert ReadKey(d', keys[n], ids[n]) == ReadKey(d, keys[n], ids[n]);
    }
  }

  lemma SectionKeeps(d: State, s: Section, r: Client)
    requires Inv(World(d, r)) && Elsewhere(d, s, r.keys, r.ch)
    ensures Inv(World(Apply(d, s), r))
  {
    var d' := Apply(d, s);
    SectionStreams(d, s, r.keys, r.ch);
    GrowKeepsMarks(d, d', r);
    SectionTokens(d, s, r);
    if r.phase.Registering? || r.phase.Waiting? {
      forall i | 0 <= i < |r.marks|
        ensures Pending(d', r, i)
        ensures Mail(d', r.ch) == [] ==> Lookup(d'.cache, r.keys[i]) == Lookup(d.cache, r.keys[i])
      {
        SectionPending(d, s, r, i);
      }
      if r.phase.Waiting? && Mail(d', r.ch) == [] { StillNothing(d, s, r); }
    }
  }

  lemma StillNothing(d: State, s: Section, r: Client)
    requires r.phase.Waiting? && Mail(Apply(d, s), r.ch) == [] && Inv(World(d, r)) && Elsewhere(d, s, r.keys, r.ch)
    requires forall i :: 0 <= i < |r.marks| ==> Lookup(Apply(d, s).cache, r.keys[i]) == Lookup(d.cache, r.keys[i])
    ensures NothingNew(ReadNow(Apply(d, s), r), r.keys)
  {
    HandOffElsewhere(d, s, r);
    SectionRespects(d, s, r.ch, "");
    XReadFrame(d, Apply(d, s), r.keys, Ids(r.raw, r.tops));
  }

  // ---- The client's own steps keep the invariant -------------------------------------------------

  lemma RegisterKeeps(d: State, r: Client)
    requires Inv(World(d, r)) && r.phase.Registering? && |r.tops| < |r.keys|
    ensures Inv(AdvanceClient(World(d, r)))
  {
    var w' := AdvanceClient(World(d, r));
    RegisterMarks(d, w'.d, r, w'.r);
    RegisterTokens(d, w'.d, r, w'.r);
  }

  lemma RegisterTokens(d: State, d': State, r: Client, r': Client)
    requires |r.marks| < |r.keys| && Tokens(d, r) && r.phase.Registering?
    requires forall i :: 0 <= i < |r.marks| ==> Pending(d, r, i)
    requires var key := r.keys[|r.marks|];
             && d' == SetWaiters(d, key, Waiters(d, key) + [r.ch])
             && r' == r.(tops := r'.tops, marks := r.marks + [|StreamAt(d, key)|])
    ensures Tokens(d', r') && Armed(d', r')
  {
    var n, key := |r.marks|, r.keys[|r.marks|];
    assert Waiters(d', key) == Waiters(d, key) + [r.ch];
    assert r.keys[..n + 1] == r.keys[..n] + [key];
    forall k | r.ch in Waiters(d', k) ensures k in r.keys[..n + 1] {
      if k != key { assert Waiters(d', k) == Waiters(d, k); }
    }
    forall i | 0 <= i < n + 1 ensures Pending(d', r', i) {
      if i < n { PendingAfterJoin(d, d', r, r', i); }
    }
    if Mail(d', r.ch) != [] {
      var i :| Grown(d, r, i);
      assert Grown(d', r', i);
    }
  }

  lemma PendingAfterJoin(d: State, d': State, r: Client, r': Client, i: nat)
    requires i < |r.marks| < |r.keys| && Pending(d, r, i)
    requires d' == SetWaiters(d, r.keys[|r.marks|], Waiters(d, r.keys[|r.marks|]) + [r.ch])
    requires r' == r.(tops := r'.tops, marks := r'.marks) && |r'.marks| == |r.marks| + 1 && r'.marks[i] == r.marks[i]
    ensures Pending(d', r', i)
  {
  }

  lemma RegisterMarks(d: State, d': State, r: Client, r': Client)
    requires Marked(d, r) && r.phase.Registering? && |r.tops| < |r.keys| && d'.cache == d.cache
    requires r' == r.(tops := r.tops + [Register(d, r.keys[|r.tops|], r.ch).1],
                      marks := r.marks + [|StreamAt(d, r.keys[|r.tops|])|])
    ensures Marked(d', r')
  {
    forall i | 0 <= i < |r'.marks| ensures Noted(StreamAt(d', r'.keys[i]), r'.marks[i], r'.tops[i]) {
      if i < |r.marks| { assert Noted(StreamAt(d, r.keys[i]), r.marks[i], r.tops[i]); }
    }
  }

  /** The streams and the marks do not depend on the queues and the phase. */
  lemma SameStreams(d: State, d': State, r: Client, r': Client)
    requires StreamsAt(d, r.keys) && Marked(d, r) && d'.cache == d.cache
    requires r' == r.(phase := r'.phase) && |r.marks| == |r.keys|
    ensures StreamsAt(d', r'.keys) && Marked(d', r')
    ensures forall i :: Grown(d, r, i) ==> Grown(d', r', i)
  {
  }

  lemma FewerTokens(d: State, d': State, r: Client, r': Client)
    requires |r.marks| == |r.keys| && r' == r.(phase := r'.phase) && Tokens(d, r)
    requires forall i :: Grown(d, r, i) ==> Grown(d', r', i)
    requires forall k :: r.ch in Waiters(d', k) ==> r.ch in Waiters(d, k)
    requires Mail(d', r.ch) != [] || Woken(r') ==> Mail(d, r.ch) != [] || Woken(r)
    ensures Tokens(d', r')
  {
    if Mail(d', r.ch) != [] || Woken(r') {
      var i :| Grown(d, r, i);
      assert Grown(d', r', i);
    }
  }

  lemma ReceiveKeeps(d: State, r: Client)
    requires Inv(World(d, r)) && r.phase.Waiting? && Mail(d, r.ch) != []
    ensures Inv(AdvanceClient(World(d, r)))
  {
    var w' := AdvanceClient(World(d, r));
    SameStreams(d, w'.d, r, w'.r);
    FewerTokens(d, w'.d, r, w'.r);
  }

  lemma {:induction false} RemoveFirstIn(queue: seq<Chan>, c: Chan, ch: Chan)
    ensures ch in RemoveFirst(queue, c) ==> ch in queue
  {
    if queue != [] { RemoveFirstIn(queue[1..], c, ch); }
  }

  lemma RemoveKeeps(d: State, r: Client)
    requires Inv(World(d, r)) && r.phase.Removing? && r.phase.left != []
    ensures Inv(AdvanceClient(World(d, r)))
  {
    var key, w' := r.phase.left[0], AdvanceClient(World(d, r));
    LeaveFewer(d, key, r.ch);
    SameStreams(d, w'.d, r, w'.r);
    FewerTokens(d, w'.d, r, w'.r);
  }

  lemma LeaveFewer(d: State, key: string, ch: Chan)
    ensures var d' := CleanUpWaiter(d, key, ch);
            d'.cache == d.cache && d'.mail == d.mail
            && forall k :: ch in Waiters(d', k) ==> ch in Waiters(d, k)
  {
    RemoveFirstIn(Waiters(d, key), ch, ch);
    var d' := CleanUpWaiter(d, key, ch);
    forall k | ch in Waiters(d', k) ensures ch in Waiters(d, k) {
      if k == key { assert Waiters(d', key) == RemoveFirst(Waiters(d, key), ch); }
    }
  }

  /** A step that changes only the phase, to one without obligations of its own. */
  lemma PhaseKeeps(d: State, r: Client, phase: Phase)
    requires Inv(World(d, r)) && |r.marks| == |r.keys|
    requires phase.Waiting? ==> r.phase.Registering? && NothingNew(ReadNow(d, r), r.keys)
    requires !phase.Registering? && !Woken(r.(phase := phase))
    ensures Inv(World(d, r.(phase := phase)))
  {
    var r' := r.(phase := phase);
    SameStreams(d, d, r, r');
    FewerTokens(d, d, r, r');
    if phase.Waiting? {
      forall i | 0 <= i < |r.marks| ensures Pending(d, r', i) { assert Pending(d, r, i); }
    }
  }

  lemma AdvanceKeeps(d: State, r: Client)
    requires Inv(World(d, r))
    ensures Inv(AdvanceClient(World(d, r)))
  {
    match r.phase
    case Registering =>
      if |r.tops| < |r.keys| {
        RegisterKeeps(d, r);
      } else {
        PhaseKeeps(d, r, AfterFirstRead(ReadNow(d, r), r.keys));
      }
    case Waiting => if Mail(d, r.ch) != [] { ReceiveKeeps(d, r); }
    case Removing(left, next) =>
      if left == [] { PhaseKeeps(d, r, Finish(d, r, next)); } else { RemoveKeeps(d, r); }
    case _ =>
  }

  lemma DeliverKeeps(d: State, r: Client, ch: Chan)
    requires Inv(World(d, r)) && ch != r.ch
    ensures Inv(World(ReceiveValue(d, ch), r))
  {
    var d' := ReceiveValue(d, ch);
    assert Mail(d', r.ch) == Mail(d, r.ch) && d'.cache == d.cache && d'.waiters == d.waiters;
    GrowKeepsMarks(d, d', r);
    if r.phase.Registering? || r.phase.Waiting? {
      forall i | 0 <= i < |r.marks| ensures Pending(d', r, i) { assert Pending(d, r, i); }
    }
    if |r.tops| == |r.raw| == |r.keys| { XReadFrame(d, d', r.keys, Ids(r.raw, r.tops)); }
  }

  lemma StepKeeps(w: World, e: Event)
    requires Inv(w) && Permitted(w, e)
    ensures Inv(Step(w, e))
  {
    match e
    case Server(s) => SectionKeeps(w.d, s, w.r);
    case Deliver(ch) => DeliverKeeps(w.d, w.r, ch);
    case Advance => AdvanceKeeps(w.d, w.r);
    case Timeout =>
      if w.r.phase == Waiting && w.r.timeoutMs != 0 { PhaseKeeps(w.d, w.r, Removing(w.r.keys, Null)); }
  }

  lemma {:induction false} RunKeeps(w: World, events: seq<Event>)
    requires Inv(w) && AllPermitted(w, events)
    ensures Inv(RunEvents(w, events))
    decreases |events|
  {
    if events != [] {
      StepKeeps(w, events[0]);
      RunKeeps(Step(w, events[0]), events[1..]);
    }
  }

  // ---- The theorems ---------------------------------------------------------------------------

  /** A client with a new channel that has parsed its request. */
  predicate Starts(w: World) {
    && |w.r.keys| == |w.r.raw| && w.r.tops == [] && w.r.marks == [] && w.r.phase.Registering?
    && Mail(w.d, w.r.ch) == []
  }

  ghost predicate UnusedChannel(d: State, ch: Chan) { forall k :: ch !in Waiters(d, k) }

  lemma StartInv(w: World)
    requires Starts(w) && UnusedChannel(w.d, w.r.ch) && StreamsAt(w.d, w.r.keys)
    ensures Inv(w)
  {
  }

  predicate LastOf(keys: seq<string>, i: nat) { i < |keys| && keys[i] !in keys[i + 1..] }

  /** XREAD answers each key with what lies above the ID given last for it. */
  lemma {:induction false} XReadAt(d: State, keys: seq<string>, ids: seq<string>, i: nat)
    requires |keys| == |ids| && LastOf(keys, i) && XRead(d, keys, ids).Entries?
    ensures ReadKey(d, keys[i], ids[i]).Entries? && keys[i] in XRead(d, keys, ids).found
    ensures XRead(d, keys, ids).found[keys[i]] == ReadKey(d, keys[i], ids[i]).found
    decreases |keys|
  {
    var n := |keys| - 1;
    if i < n {
      assert keys[i + 1..][n - i - 1] == keys[n];
      assert keys[..n][i + 1..] == keys[i + 1..][..n - i - 1];
      XReadAt(d, keys[..n], ids[..n], i);
    }
  }

  /** No lost wake-up: in every reachable state, if the client waits while some stream has an
      entry above the ID requested last for it, a token for its channel is there. */
  lemma NoLostWakeUp(w: World, events: seq<Event>, i: nat)
    requires Starts(w) && UnusedChannel(w.d, w.r.ch) && StreamsAt(w.d, w.r.keys) && AllPermitted(w, events)
    ensures var v := RunEvents(w, events);
            v.r.phase.Waiting? ==>
              && |v.r.raw| == |v.r.tops| == |v.r.keys|
              && (LastOf(v.r.keys, i) && Mail(v.d, v.r.ch) == [] ==>
                    ReadKey(v.d, v.r.keys[i], Ids(v.r.raw, v.r.tops)[i]) == Entries([]))
  {
    StartInv(w);
    RunKeeps(w, events);
    var v := RunEvents(w, events);
    if v.r.phase.Waiting? && LastOf(v.r.keys, i) && Mail(v.d, v.r.ch) == [] {
      XReadAt(v.d, v.r.keys, Ids(v.r.raw, v.r.tops), i);
      assert !HasAny(ReadNow(v.d, v.r).found, v.r.keys);
    }
  }

  /** What lies above the noted top is what was added since it was noted. */
  lemma ReadsSinceMark(d: State, k: string, mark: nat, top: string)
    requires StreamKey(d, k) && Ordered(StreamAt(d, k)) && Noted(StreamAt(d, k), mark, top)
    ensures ReadKey(d, k, top) == Entries(StreamAt(d, k)[mark..])
  {
    var entries := StreamAt(d, k);
    var got := entries[..mark];
    TopIsFull(entries, mark, top);
    ReadsStream(d, k, top);
    PollCatchesUp(d, k, got);
    CursorIsTop(entries, mark, top);
    SameRest(got, ReadKey(d, k, top).found, entries, mark);
  }

  lemma ReadsStream(d: State, k: string, id: string)
    requires StreamKey(d, k) && ParseIDOptionalSeq(id, true).Some?
    ensures ReadKey(d, k, id).Entries?
  {
  }

  lemma CursorIsTop(entries: seq<Entry>, mark: nat, top: string)
    requires Noted(entries, mark, top)
    ensures Cursor(entries[..mark]) == top
  {
  }

  /** The noted ID is a full one. */
  lemma TopIsFull(entries: seq<Entry>, mark: nat, top: string)
    requires Ordered(entries) && Noted(entries, mark, top)
    ensures ParseIDOptionalSeq(top, true).Some?
  {
    if mark == 0 {
      ParseFormat(ZERO);
      assert FormatID(ZERO) == "0-0";
    } else {
      assert Canonical(entries[mark - 1]);
    }
    FullID(top);
  }

  lemma SameRest(got: seq<Entry>, rest: seq<Entry>, entries: seq<Entry>, mark: nat)
    requires mark <= |entries| && got == entries[..mark] && got + rest == entries
    ensures rest == entries[mark..]
  {
    assert (got + rest)[mark..] == rest;
  }

  lemma {:induction false} XReadSucceeds(d: State, keys: seq<string>, ids: seq<string>)
    requires |keys| == |ids| && forall i :: 0 <= i < |keys| ==> ReadKey(d, keys[i], ids[i]).Entries?
    ensures XRead(d, keys, ids).Entries?
    decreases |keys|
  {
    if keys != [] {
      var n := |keys| - 1;
      assert forall i :: 0 <= i < n ==> keys[..n][i] == keys[i] && ids[..n][i] == ids[i];
      XReadSucceeds(d, keys[..n], ids[..n]);
    }
  }

  predicate Distinct(keys: seq<string>) { forall i, j :: 0 <= i < j < |keys| ==> keys[i] != keys[j] }

  predicate DollarOnly(raw: seq<string>) { forall i :: 0 <= i < |raw| ==> raw[i] == "$" }

  /** A client that asked for `$` everywhere and was woken by a token answers, for every key,
      exactly the entries added since it registered there last; if no key is named twice there is
      at least one. */
  lemma WokenClientGetsNew(w: World, events: seq<Event>)
    requires Starts(w) && UnusedChannel(w.d, w.r.ch) && StreamsAt(w.d, w.r.keys) && AllPermitted(w, events)
    requires var r := RunEvents(w, events).r;
             r.phase == Removing([], Reread) && DollarOnly(r.raw)
    ensures var v := RunEvents(w, events);
            var answer := AdvanceClient(v).r.phase;
            && answer.Replied? && answer.result.Entries? && |v.r.marks| == |v.r.keys|
            && (forall i: nat :: LastOf(v.r.keys, i) ==> AnswersSince(v.d, v.r, answer.result.found, i))
            && (Distinct(v.r.keys) ==> HasAny(answer.result.found, v.r.keys))
  {
    StartInv(w);
    RunKeeps(w, events);
    var v := RunEvents(w, events);
    AnswerSinceMarks(v.d, v.r);
    if Distinct(v.r.keys) {
      var i :| Grown(v.d, v.r, i);
      assert LastOf(v.r.keys, i);
      assert AnswersSince(v.d, v.r, ReadNow(v.d, v.r).found, i);
    }
  }

  predicate AnswersSince(d: State, r: Client, found: map<string, seq<Entry>>, i: nat)
    requires i < |r.marks| == |r.keys|
  {
    && r.marks[i] <= |StreamAt(d, r.keys[i])|
    && r.keys[i] in found && found[r.keys[i]] == StreamAt(d, r.keys[i])[r.marks[i]..]
  }

  lemma AnswerSinceMarks(d: State, r: Client)
    requires StreamsAt(d, r.keys) && Marked(d, r) && !r.phase.Registering? && DollarOnly(r.raw)
    ensures ReadNow(d, r).Entries?
    ensures forall i: nat :: LastOf(r.keys, i) ==> AnswersSince(d, r, ReadNow(d, r).found, i)
  {
    var ids := Ids(r.raw, r.tops);
    forall i | 0 <= i < |r.keys|
      ensures ReadKey(d, r.keys[i], ids[i]) == Entries(StreamAt(d, r.keys[i])[r.marks[i]..])
    {
      assert r.keys[i] in r.keys;
      ReadsSinceMark(d, r.keys[i], r.marks[i], r.tops[i]);
    }
    XReadSucceeds(d, r.keys, ids);
    forall i: nat | LastOf(r.keys, i) ensures AnswersSince(d, r, ReadNow(d, r).found, i) {
      XReadAt(d, r.keys, ids, i);
    }
  }
}
