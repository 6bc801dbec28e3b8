/** What XADD, XRANGE and XREAD mean to a client, in plain numbers: which ID an entry gets, and which
    entries a range or a read answers. */
module StreamCommands {
  import opened Strconv
  import opened RespStream
  import opened StreamIds
  import opened StoreModel
  import opened Watching
  import opened Streams
  import opened Commands
  import opened CommandNames
  import opened ListCommands

  // ---- Ranges and reads -----------------------------------------------------------------------

  /** The entries whose IDs satisfy a condition, in order. */
  function Those(entries: seq<Entry>, p: ID -> bool): seq<Entry> {
    if entries == [] then []
    else (if p(IdOf(entries[0])) then [entries[0]] else []) + Those(entries[1..], p)
  }

  ghost predicate Agrees(entries: seq<Entry>, p: ID -> bool, q: Entry -> bool) {
    forall i :: 0 <= i < |entries| ==> (p(IdOf(entries[i])) <==> q(entries[i]))
  }

  lemma {:induction false} WithinIsThose(entries: seq<Entry>, low: ID, high: ID, p: ID -> bool)
    requires Agrees(entries, p, e => IDWithin(e, low, high))
    ensures EntriesWithin(entries, low, high) == Those(entries, p)
  {
    if entries != [] {
      assert forall i :: 0 <= i < |entries[1..]| ==> entries[1..][i] == entries[i + 1];
      WithinIsThose(entries[1..], low, high, p);
      assert p(IdOf(entries[0])) <==> IDWithin(entries[0], low, high);
    }
  }

  lemma {:induction false} AboveIsThose(entries: seq<Entry>, low: ID, p: ID -> bool)
    requires Agrees(entries, p, e => IDAbove(e, low))
    ensures EntriesAbove(entries, low) == Those(entries, p)
  {
    if entries != [] {
      assert forall i :: 0 <= i < |entries[1..]| ==> entries[1..][i] == entries[i + 1];
      AboveIsThose(entries[1..], low, p);
      assert p(IdOf(entries[0])) <==> IDAbove(entries[0], low);
    }
  }

  lemma {:induction false} ThoseAll(entries: seq<Entry>, p: ID -> bool)
    requires forall i :: 0 <= i < |entries| ==> p(IdOf(entries[i]))
    ensures Those(entries, p) == entries
  {
    if entries != [] {
      assert forall i :: 0 <= i < |entries[1..]| ==> entries[1..][i] == entries[i + 1];
      ThoseAll(entries[1..], p);
    }
  }

  /** A bound of a range reads as this ID. */
  predicate Bound(text: string, isStart: bool, id: ID) { ParseIDOptionalSeq(text, isStart) == Some(id) }

  lemma RangeBetween(d: State, k: string, from: string, to: string, low: ID, high: ID, p: ID -> bool)
    requires StreamKey(d, k) && Ordered(StreamAt(d, k)) && Bound(from, true, low) && Bound(to, false, high)
    requires forall id: ID :: id.Valid() ==> (p(id) <==> !id.Less(low) && !high.Less(id))
    ensures XRange(d, k, from, to) == Entries(Those(StreamAt(d, k), p))
  {
    var entries := StreamAt(d, k);
    forall i | 0 <= i < |entries| ensures p(IdOf(entries[i])) <==> IDWithin(entries[i], low, high) {
      assert Canonical(entries[i]);
    }
    WithinIsThose(entries, low, high, p);
  }

  lemma ReadAbove(d: State, k: string, from: string, low: ID, p: ID -> bool)
    requires StreamKey(d, k) && Ordered(StreamAt(d, k)) && Bound(from, true, low)
    requires forall id: ID :: id.Valid() ==> (p(id) <==> low.Less(id))
    ensures ReadKey(d, k, from) == Entries(Those(StreamAt(d, k), p))
  {
    var entries := StreamAt(d, k);
    forall i | 0 <= i < |entries| ensures p(IdOf(entries[i])) <==> IDAbove(entries[i], low) {
      assert Canonical(entries[i]);
    }
    AboveIsThose(entries, low, p);
  }

  /** A number of milliseconds alone: the first ID of it as a start, the last one as an end. */
  lemma MillisBound(a: int)
    requires 0 <= a <= MAX_INT64
    ensures Bound(FormatInt(a), true, ID(a, 0)) && Bound(FormatInt(a), false, ID(a, MAX_INT64))
  {
    NoDash(a);
    AtoiFormat(a);
    assert IsDigit(FormatInt(a)[0]);
  }

  lemma FullBound(id: ID, isStart: bool)
    requires id.Valid()
    ensures Bound(FormatID(id), isStart, id)
  {
    ParseFormat(id);
    FullID(FormatID(id));
  }

  /** XRANGE - + is the whole stream. */
  lemma RangeWhole(d: State, k: string)
    requires StreamKey(d, k) && Ordered(StreamAt(d, k))
    ensures XRange(d, k, "-", "+") == Entries(StreamAt(d, k))
  {
    var all := (id: ID) => true;
    RangeBetween(d, k, "-", "+", ZERO, ID(MAX_INT64, MAX_INT64), all);
    ThoseAll(StreamAt(d, k), all);
  }

  /** XRANGE a b with milliseconds only: exactly the entries of those milliseconds. */
  lemma RangeOfMillis(d: State, k: string, a: int, b: int)
    requires StreamKey(d, k) && Ordered(StreamAt(d, k)) && 0 <= a <= MAX_INT64 && 0 <= b <= MAX_INT64
    ensures XRange(d, k, FormatInt(a), FormatInt(b)) == Entries(Those(StreamAt(d, k), (id: ID) => a <= id.ms <= b))
  {
    MillisBound(a);
    MillisBound(b);
    RangeBetween(d, k, FormatInt(a), FormatInt(b), ID(a, 0), ID(b, MAX_INT64), (id: ID) => a <= id.ms <= b);
  }

  /** XRANGE with full IDs: both ends are among the entries. */
  lemma RangeOfIDs(d: State, k: string, a: ID, b: ID)
    requires StreamKey(d, k) && Ordered(StreamAt(d, k)) && a.Valid() && b.Valid()
    ensures XRange(d, k, FormatID(a), FormatID(b))
         == Entries(Those(StreamAt(d, k), (id: ID) =>
              (a.ms < id.ms || (a.ms == id.ms && a.seqNo <= id.seqNo))
              && (id.ms < b.ms || (id.ms == b.ms && id.seqNo <= b.seqNo))))
  {
    FullBound(a, true);
    FullBound(b, false);
    RangeBetween(d, k, FormatID(a), FormatID(b), a, b, (id: ID) =>
              (a.ms < id.ms || (a.ms == id.ms && a.seqNo <= id.seqNo))
              && (id.ms < b.ms || (id.ms == b.ms && id.seqNo <= b.seqNo)));
  }

  /** XREAD from milliseconds only: the entries above the first ID of them. */
  lemma ReadFromMillis(d: State, k: string, a: int)
    requires StreamKey(d, k) && Ordered(StreamAt(d, k)) && 0 <= a <= MAX_INT64
    ensures ReadKey(d, k, FormatInt(a))
         == Entries(Those(StreamAt(d, k), (id: ID) => a < id.ms || (a == id.ms && 0 < id.seqNo)))
  {
    MillisBound(a);
    ReadAbove(d, k, FormatInt(a), ID(a, 0), (id: ID) => a < id.ms || (a == id.ms && 0 < id.seqNo));
  }

  /** XREAD from a full ID: the entries after it, without it. */
  lemma ReadFromID(d: State, k: string, a: ID)
    requires StreamKey(d, k) && Ordered(StreamAt(d, k)) && a.Valid()
    ensures ReadKey(d, k, FormatID(a))
         == Entries(Those(StreamAt(d, k), (id: ID) => a.ms < id.ms || (a.ms == id.ms && a.seqNo < id.seqNo)))
  {
    FullBound(a, true);
    ReadAbove(d, k, FormatID(a), a, (id: ID) => a.ms < id.ms || (a.ms == id.ms && a.seqNo < id.seqNo));
  }

  /** An ID is written and read as milliseconds, a dash and the sequence number. */
  lemma IDText(ms: int, seqNo: int)
    requires 0 <= ms <= MAX_INT64 && 0 <= seqNo <= MAX_INT64
    ensures FormatID(ID(ms, seqNo)) == FormatInt(ms) + "-" + FormatInt(seqNo)
    ensures ParseStreamID(FormatInt(ms) + "-" + FormatInt(seqNo)) == Some(ID(ms, seqNo))
  {
    ParseFormat(ID(ms, seqNo));
  }

  predicate Readable(text: string) { ParseIDOptionalSeq(text, true).Some? }

  /** Whether a text reads as an ID does not depend on the end it is for. */
  lemma ReadableEitherWay(text: string)
    ensures ParseIDOptionalSeq(text, false).Some? <==> Readable(text)
  {
  }

  /** XRANGE looks at the key first, XREAD at the ID. */
  lemma ReadErrors(d: State, k: string, from: string, to: string)
    ensures XRange(d, k, from, to).WrongTypeError? <==> k in d.cache && !d.cache[k].Stream?
    ensures XRange(d, k, from, to).BadIDError?
       <==> k in d.cache && d.cache[k].Stream? && !(Readable(from) && Readable(to))
    ensures k !in d.cache ==> XRange(d, k, from, to) == Entries([])
    ensures ReadKey(d, k, from).BadIDError? <==> !Readable(from)
    ensures ReadKey(d, k, from).WrongTypeError? <==> Readable(from) && k in d.cache && !d.cache[k].Stream?
    ensures Readable(from) && k !in d.cache ==> ReadKey(d, k, from) == Entries([])
  {
    ReadableEitherWay(to);
  }

  predicate AllAnswer(d: State, keys: seq<string>, ids: seq<string>)
    requires |keys| == |ids|
  {
    forall i :: 0 <= i < |keys| ==> ReadKey(d, keys[i], ids[i]).Entries?
  }

  lemma AllAnswerStep(d: State, keys: seq<string>, ids: seq<string>, n: nat)
    requires |keys| == |ids| == n + 1
    ensures AllAnswer(d, keys, ids) <==> AllAnswer(d, keys[..n], ids[..n]) && ReadKey(d, keys[n], ids[n]).Entries?
  {
    assert forall i :: 0 <= i < n ==> keys[..n][i] == keys[i] && ids[..n][i] == ids[i];
  }

  /** XREAD of several keys answers all of them, or the error of the first that has one. */
  lemma {:induction false} XReadAnswers(d: State, keys: seq<string>, ids: seq<string>)
    requires |keys| == |ids|
    ensures XRead(d, keys, ids).Entries? <==> AllAnswer(d, keys, ids)
    decreases |keys|
  {
    if keys != [] {
      var n := |keys| - 1;
      XReadAnswers(d, keys[..n], ids[..n]);
      AllAnswerStep(d, keys, ids, n);
    }
  }

  lemma {:induction false} XReadFirstError(d: State, keys: seq<string>, ids: seq<string>, i: nat)
    requires |keys| == |ids| && i < |keys| && !ReadKey(d, keys[i], ids[i]).Entries?
    requires AllAnswer(d, keys[..i], ids[..i])
    ensures XRead(d, keys, ids).BadIDError? <==> ReadKey(d, keys[i], ids[i]).BadIDError?
    ensures XRead(d, keys, ids).WrongTypeError? <==> ReadKey(d, keys[i], ids[i]).WrongTypeError?
    decreases |keys|
  {
    var n := |keys| - 1;
    if i < n {
      assert keys[..n][..i] == keys[..i] && ids[..n][..i] == ids[..i];
      XReadFirstError(d, keys[..n], ids[..n], i);
    } else {
      XReadAnswers(d, keys[..n], ids[..n]);
    }
  }

  // ---- XADD -----------------------------------------------------------------------------------

  /** A well-formed XADD: a key, an ID and pairs of strings. */
  predicate WellFormedXADD(arr: Command) { |arr| >= 5 && |arr| % 2 == 1 && AllStrings(arr, 3) }

  /** The largest ID of the stream, 0-0 when it is empty. */
  function TopAt(d: State, key: string): ID {
    if StreamAt(d, key) == [] then ZERO else IdOf(StreamAt(d, key)[|StreamAt(d, key)| - 1])
  }

  /** The entry is appended under this ID, which is the answer; XADD is never logged. */
  predicate Appends(d: State, e: Effect, key: string, id: ID, fields: seq<string>) {
    && e.d.cache == d.cache[key := Stream(StreamAt(d, key) + [Entry(FormatID(id), fields)])]
    && e.d.expiry == d.expiry && e.persisted == [] && e.replies == [Bulk(FormatID(id))]
  }

  predicate Refuses(d: State, e: Effect, text: string) { e == Effect(d, [], [Error(text)]) }

  predicate OpenStream(d: State, key: string, now: int) {
    StreamKey(d, key) && Ordered(StreamAt(d, key)) && !Expired(d, key, now)
  }

  lemma NoProblem(d: State, arr: Command, env: Env)
    requires WellFormedXADD(arr)
    ensures ExecXADD(d, arr, env) == AppendTo(d, Arg(arr, 1), Arg(arr, 2), Words(arr, 3), env)
  {
    ArgumentsFine(arr);
    StringsAreWords(arr, 3);
  }

  lemma ArgumentsFine(arr: Command)
    requires WellFormedXADD(arr)
    ensures XADDProblem(arr).None?
  {
    assert (|arr| - 3) % 2 == 0;
  }

  lemma KeyOpen(d: State, key: string, id: string, fields: seq<string>, env: Env)
    requires OpenStream(d, key, env.now)
    ensures var (d', r) := XAdd(d, key, id, fields, Millis(env));
            AppendTo(d, key, id, fields, env) == Effect(d', [], [XAddReply(r)])
  {
  }

  /** What XADD does once its ID is chosen or refused. */
  /** What a well-formed XADD does is decided by the ID it is given. */
  predicate Outcome(d: State, e: Effect, key: string, chosen: XAddResult, fields: seq<string>) {
    if chosen.Added? then
      && e.d.cache == d.cache[key := Stream(StreamAt(d, key) + [Entry(chosen.id, fields)])]
      && e.d.expiry == d.expiry && e.persisted == [] && e.replies == [Bulk(chosen.id)]
    else e == Effect(d, [], [XAddReply(chosen)])
  }

  lemma Follows(d: State, key: string, text: string, fields: seq<string>, env: Env, chosen: XAddResult)
    requires OpenStream(d, key, env.now) && chosen == ChooseID(d, key, text, Millis(env))
    ensures Outcome(d, AppendTo(d, key, text, fields, env), key, chosen, fields)
  {
    KeyOpen(d, key, text, fields, env);
    XAddFrame(d, key, text, fields, Millis(env));
  }

  lemma ServedXADD(d: State, c: Conn, arr: Command, env: Env, chosen: XAddResult)
    requires Sends(d, c, arr, "XADD") && WellFormedXADD(arr) && OpenStream(d, Arg(arr, 1), env.now)
    requires chosen == ChooseID(d, Arg(arr, 1), Arg(arr, 2), Millis(env))
    ensures Outcome(d, ServeFor(d, c, arr, env), Arg(arr, 1), chosen, Words(arr, 3))
  {
    ServeXADD(d, c, arr, env);
    NoProblem(d, arr, env);
    Follows(d, Arg(arr, 1), Arg(arr, 2), Words(arr, 3), env, chosen);
  }

  lemma TopIsLast(d: State, key: string)
    requires Ordered(StreamAt(d, key))
    ensures LastID(StreamAt(d, key)) == TopAt(d, key)
  {
    TopOfOrdered(StreamAt(d, key));
  }

  lemma StarRequest(a: int)
    requires 0 <= a <= MAX_INT64
    ensures ParseMaybeStarID(FormatInt(a) + "-*") == Some((ID(a, 0), true))
  {
    NoDash(a);
    SplitPair(FormatInt(a), '-', "*");
    assert FormatInt(a) + "-*" == FormatInt(a) + ['-'] + "*";
    AtoiFormat(a);
  }

  lemma FullRequest(id: ID)
    requires id.Valid()
    ensures ParseMaybeStarID(FormatID(id)) == Some((id, false)) && FormatID(id) != "*"
  {
    SplitFormatted(id);
    AtoiFormat(id.ms);
    AtoiFormat(id.seqNo);
    assert |FormatID(id)| >= 2;
    assert FormatInt(id.seqNo)[0] != '*';
  }

  /** `*` or `ms-*`: the clock's or the given milliseconds, which may not lie before those of the top;
      the sequence number is one more than the top's in the same milliseconds, and 0 in new ones. */
  lemma XAddGenerates(d: State, c: Conn, arr: Command, env: Env, a: int)
    requires Sends(d, c, arr, "XADD") && WellFormedXADD(arr) && OpenStream(d, Arg(arr, 1), env.now)
    requires || (Arg(arr, 2) == "*" && a == env.now / 1_000_000)
            || (0 <= a <= MAX_INT64 && Arg(arr, 2) == FormatInt(a) + "-*")
    requires TopAt(d, Arg(arr, 1)).seqNo < MAX_INT64
    ensures var e, top := ServeFor(d, c, arr, env), TopAt(d, Arg(arr, 1));
            if a < top.ms then Refuses(d, e, NOT_ABOVE_TOP)
            else Appends(d, e, Arg(arr, 1), ID(a, if a == top.ms then top.seqNo + 1 else 0), Words(arr, 3))
  {
    GeneratedID(d, arr, env, a, TopAt(d, Arg(arr, 1)));
    ServedXADD(d, c, arr, env, ChooseID(d, Arg(arr, 1), Arg(arr, 2), Millis(env)));
  }

  lemma GeneratedID(d: State, arr: Command, env: Env, a: int, top: ID)
    requires OpenStream(d, Arg(arr, 1), env.now) && top == TopAt(d, Arg(arr, 1)) && top.seqNo < MAX_INT64
    requires (Arg(arr, 2) == "*" && a == Millis(env)) || (0 <= a <= MAX_INT64 && Arg(arr, 2) == FormatInt(a) + "-*")
    ensures ChooseID(d, Arg(arr, 1), Arg(arr, 2), Millis(env))
         == if a < top.ms then NotAboveTop else Added(FormatID(ID(a, if a == top.ms then top.seqNo + 1 else 0)))
  {
    TopIsLast(d, Arg(arr, 1));
    TopOfOrdered(StreamAt(d, Arg(arr, 1)));
    Generated(Arg(arr, 2), Millis(env), a);
    NextGenerated(a, top);
  }

  lemma Generated(text: string, now: int, a: int)
    requires (text == "*" && a == now) || (0 <= a <= MAX_INT64 && text == FormatInt(a) + "-*")
    ensures Requested(text, now) == Some((ID(a, 0), true))
  {
    if text != "*" {
      StarRequest(a);
    } else if 0 <= a {
      assert |FormatInt(a) + "-*"| > 1;
    }
  }

  lemma NextGenerated(a: int, top: ID)
    requires 0 <= top.seqNo < MAX_INT64
    ensures NextID(ID(a, 0), true, top)
         == if a < top.ms then None else Some(ID(a, if a == top.ms then top.seqNo + 1 else 0))
  {
  }

  /** A full ID: it is taken exactly if it lies above the top; 0-0 is refused in words of its own. */
  lemma XAddTakes(d: State, c: Conn, arr: Command, env: Env, id: ID)
    requires Sends(d, c, arr, "XADD") && WellFormedXADD(arr) && OpenStream(d, Arg(arr, 1), env.now)
    requires id.Valid() && Arg(arr, 2) == FormatID(id)
    ensures var e, top := ServeFor(d, c, arr, env), TopAt(d, Arg(arr, 1));
            if id == ZERO then Refuses(d, e, NOT_ABOVE_ZERO)
            else if id.ms > top.ms || (id.ms == top.ms && id.seqNo > top.seqNo) then
              Appends(d, e, Arg(arr, 1), id, Words(arr, 3))
            else Refuses(d, e, NOT_ABOVE_TOP)
  {
    TakenID(d, arr, env, id, TopAt(d, Arg(arr, 1)));
    ServedXADD(d, c, arr, env, ChooseID(d, Arg(arr, 1), Arg(arr, 2), Millis(env)));
  }

  lemma TakenID(d: State, arr: Command, env: Env, id: ID, top: ID)
    requires OpenStream(d, Arg(arr, 1), env.now) && top == TopAt(d, Arg(arr, 1))
    requires id.Valid() && Arg(arr, 2) == FormatID(id)
    ensures ChooseID(d, Arg(arr, 1), Arg(arr, 2), Millis(env))
         == if id == ZERO then NotAboveZero
            else if id.ms > top.ms || (id.ms == top.ms && id.seqNo > top.seqNo) then Added(FormatID(id))
            else NotAboveTop
  {
    TopIsLast(d, Arg(arr, 1));
    FullRequest(id);
  }

  /** XADD k id, then XRANGE k id id: the entry with its fields, and no other. */
  lemma XAddThenRange(d: State, c: Conn, arr: Command, env: Env, id: ID)
    requires Sends(d, c, arr, "XADD") && WellFormedXADD(arr) && OpenStream(d, Arg(arr, 1), env.now)
    requires id.Valid() && Arg(arr, 2) == FormatID(id) && TopAt(d, Arg(arr, 1)).Less(id) && id != ZERO
    ensures XRange(ServeFor(d, c, arr, env).d, Arg(arr, 1), FormatID(id), FormatID(id))
         == Entries([Entry(FormatID(id), Words(arr, 3))])
  {
    XAddTakes(d, c, arr, env, id);
    LastAlone(d, ServeFor(d, c, arr, env).d, Arg(arr, 1), id, Words(arr, 3));
  }

  lemma LastAlone(d: State, d': State, k: string, id: ID, fields: seq<string>)
    requires StreamKey(d, k) && Ordered(StreamAt(d, k)) && id.Valid() && TopAt(d, k).Less(id) && id != ZERO
    requires Lookup(d'.cache, k) == Some(Stream(StreamAt(d, k) + [Entry(FormatID(id), fields)]))
    ensures XRange(d', k, FormatID(id), FormatID(id)) == Entries([Entry(FormatID(id), fields)])
  {
    var entries, e := StreamAt(d, k), Entry(FormatID(id), fields);
    ParseFormat(id);
    TopIsLast(d, k);
    ZeroFirst(id);
    OrderedSnoc(entries, e);
    FullBound(id, true);
    FullBound(id, false);
    var this_one := (x: ID) => x == id;
    RangeBetween(d', k, FormatID(id), FormatID(id), id, id, this_one);
    forall i | 0 <= i < |entries| ensures IdOf(entries[i]) != id {
      assert IdOf((entries + [e])[i]).Less(IdOf((entries + [e])[|entries|]));
    }
    OnlyLast(entries, e, this_one);
  }

  lemma ZeroFirst(id: ID)
    requires id.Valid() && id != ZERO
    ensures ZERO.Less(id)
  {
  }

  lemma {:induction false} OnlyLast(entries: seq<Entry>, e: Entry, p: ID -> bool)
    requires p(IdOf(e)) && forall i :: 0 <= i < |entries| ==> !p(IdOf(entries[i]))
    ensures Those(entries + [e], p) == [e]
  {
    if entries == [] {
      assert entries + [e] == [e] && [e][1..] == [];
    } else {
      assert (entries + [e])[1..] == entries[1..] + [e];
      OnlyLast(entries[1..], e, p);
    }
  }
}
