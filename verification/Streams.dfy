/** Streams: the check against the last entry keeps the whole stream ordered, and range and
    incremental reads cut an ordered stream into contiguous parts. */
module Streams {
  import opened Strconv
  import opened StreamIds
  import opened StoreModel
  import opened Sections
  import opened Watching

  function IdOf(e: Entry): ID {
    var id := ParseStreamID(e.id);
    if id.Some? then id.value else ZERO
  }

  /** The stored text reparses to a valid ID above 0-0, and is that ID's canonical form. */
  predicate Canonical(e: Entry) {
    ParseStreamID(e.id).Some? && IdOf(e).Valid() && ZERO.Less(IdOf(e)) && e.id == FormatID(IdOf(e))
  }

  predicate Ordered(entries: seq<Entry>) {
    && (forall i :: 0 <= i < |entries| ==> Canonical(entries[i]))
    && (forall i, j :: 0 <= i < j < |entries| ==> IdOf(entries[i]).Less(IdOf(entries[j])))
  }

  // ---- Appending ------------------------------------------------------------------------

  /** The request asks for the sequence number after the largest one int64 holds. */
  predicate Overflows(d: State, key: string, id: string, nowMs: int) {
    var request := Requested(id, nowMs);
    var top := LastID(StreamAt(d, key));
    request.Some? && request.value.1 && request.value.0.ms == top.ms && top.seqNo == MAX_INT64
  }

  lemma TopOfOrdered(entries: seq<Entry>)
    requires Ordered(entries)
    ensures LastID(entries).Valid()
    ensures forall i :: 0 <= i < |entries| ==> !LastID(entries).Less(IdOf(entries[i]))
    ensures entries != [] ==> LastID(entries) == IdOf(entries[|entries| - 1])
  {
  }

  lemma NextIsAbove(request: ID, auto: bool, top: ID)
    requires top.Valid() && IsInt64(request.ms) && (!auto ==> request.Valid())
    requires NextID(request, auto, top).Some?
    ensures var next := NextID(request, auto, top).value;
            && (auto && request.ms == top.ms && top.seqNo == MAX_INT64 <==> next.seqNo < 0)
            && (next.seqNo >= 0 ==> next.Valid() && top.Less(next) && ZERO.Less(next))
            && next.ms >= 0
  {
    assert Wrap64(MAX_INT64 + 1) == MIN_INT64;
  }

  lemma NegativeUnparsable(id: ID)
    requires id.ms >= 0 && id.seqNo < 0
    ensures ParseStreamID(FormatID(id)).None?
  {
    var a, b := FormatInt(id.ms), FormatNat(-id.seqNo);
    NoDash(id.ms);
    NoDash(-id.seqNo);
    var s := FormatID(id);
    assert s == a + "-" + ("-" + b);
    IndexOfIs(s, '-', |a|);
    assert s[|a| + 1..] == "-" + b;
    assert ("-" + b)[1..] == b;
    IndexOfIs("-" + b, '-', 0);
    assert |Split("-" + b, '-')| >= 2;
    assert |Split(s, '-')| >= 3;
  }

  lemma RequestIsValid(id: string, nowMs: int)
    requires IsInt64(nowMs)
    ensures var r := Requested(id, nowMs);
            r.Some? ==> IsInt64(r.value.0.ms) && (!r.value.1 ==> r.value.0.Valid())
  {
    ParsedIsValid(id);
  }

  /** One XADD on an ordered stream under any clock: if it appends, the result is ordered
      exactly when the sequence number does not overflow. */
  lemma XAddKeepsOrder(d: State, key: string, id: string, fields: seq<string>, nowMs: int)
    requires IsInt64(nowMs) && Ordered(StreamAt(d, key))
    ensures ChooseID(d, key, id, nowMs).Added? ==>
              (Ordered(StreamAt(XAdd(d, key, id, fields, nowMs).0, key)) <==> !Overflows(d, key, id, nowMs))
    ensures !ChooseID(d, key, id, nowMs).Added? ==> XAdd(d, key, id, fields, nowMs).0 == d
  {
    var chosen := ChooseID(d, key, id, nowMs);
    if chosen.Added? {
      var entries := StreamAt(d, key);
      var entry := Entry(chosen.id, fields);
      XAddFrame(d, key, id, fields, nowMs);
      assert StreamAt(XAdd(d, key, id, fields, nowMs).0, key) == entries + [entry];
      var request := Requested(id, nowMs).value;
      RequestIsValid(id, nowMs);
      TopOfOrdered(entries);
      NextIsAbove(request.0, request.1, LastID(entries));
      var next := NextID(request.0, request.1, LastID(entries)).value;
      if next.seqNo < 0 {
        NegativeUnparsable(next);
        assert (entries + [entry])[|entries|] == entry;
      } else {
        ParseFormat(next);
        OrderedSnoc(entries, entry);
      }
    }
  }

  lemma LessTrans(a: ID, b: ID, c: ID)
    requires !b.Less(a) && b.Less(c)
    ensures a.Less(c)
  {
  }

  lemma OrderedSnoc(entries: seq<Entry>, e: Entry)
    requires Ordered(entries) && Canonical(e) && LastID(entries).Less(IdOf(e))
    ensures Ordered(entries + [e])
  {
    TopOfOrdered(entries);
    forall i | 0 <= i < |entries| ensures IdOf(entries[i]).Less(IdOf(e)) {
      LessTrans(IdOf(entries[i]), LastID(entries), IdOf(e));
    }
    OrderedWith(entries, e);
  }

  lemma OrderedWith(entries: seq<Entry>, e: Entry)
    requires Ordered(entries) && Canonical(e) && forall i :: 0 <= i < |entries| ==> IdOf(entries[i]).Less(IdOf(e))
    ensures Ordered(entries + [e])
  {
    var all := entries + [e];
    forall i | 0 <= i < |all| ensures Canonical(all[i]) {
      if i < |entries| { assert Canonical(entries[i]); }
    }
    forall i, j | 0 <= i < j < |all| ensures IdOf(all[i]).Less(IdOf(all[j])) {
      if j < |entries| { assert IdOf(entries[i]).Less(IdOf(entries[j])); }
    }
  }

  /** Along the run, k is written only by XADDs that do not overflow, and never expires. */
  predicate OnlyXAdd(d: State, run: seq<Section>, k: string)
    decreases |run|
  {
    run == [] ||
    (var s := run[0];
     && Allowed(s)
     && !Drops(d, s, k)
     && (Writes(d, s, k) ==> s.DoXAdd? && IsInt64(s.nowMs) && !Overflows(d, k, s.id, s.nowMs))
     && OnlyXAdd(Apply(d, s), run[1..], k))
  }

  predicate StreamKey(d: State, k: string) { k in d.cache ==> d.cache[k].Stream? }

  lemma StreamStep(d: State, s: Section, k: string)
    requires NoEmptyZSet(d) && StreamKey(d, k) && Ordered(StreamAt(d, k)) && OnlyXAdd(d, [s], k)
    ensures NoEmptyZSet(Apply(d, s)) && StreamKey(Apply(d, s), k) && Ordered(StreamAt(Apply(d, s), k))
    ensures StreamAt(d, k) <= StreamAt(Apply(d, s), k)
  {
    NoEmptyZSetStep(d, s);
    if Writes(d, s, k) {
      XAddKeepsOrder(d, k, s.id, s.fields, s.nowMs);
      XAddFrame(d, k, s.id, s.fields, s.nowMs);
    } else {
      ValueStep(d, s, k);
      assert Lookup(Apply(d, s).cache, k) == Lookup(d.cache, k);
    }
  }

  /** Every reachable stream is ordered, whatever mix of explicit, `ms-*` and `*` IDs, clocks
      and other commands produced it; and a stream only grows at its end. */
  lemma {:induction false} RunKeepsOrder(d: State, run: seq<Section>, k: string)
    requires NoEmptyZSet(d) && StreamKey(d, k) && Ordered(StreamAt(d, k)) && OnlyXAdd(d, run, k)
    ensures StreamKey(Run(d, run), k) && Ordered(StreamAt(Run(d, run), k))
    ensures StreamAt(d, k) <= StreamAt(Run(d, run), k)
    decreases |run|
  {
    if run != [] {
      assert [run[0]][0] == run[0];
      StreamStep(d, run[0], k);
      RunKeepsOrder(Apply(d, run[0]), run[1..], k);
    }
  }

  // ---- Reading --------------------------------------------------------------------------

  /** How many entries lie strictly below an ID, and how many at or below it. */
  function CountBelow(entries: seq<Entry>, id: ID): (n: nat)
    ensures n <= |entries|
  {
    if entries == [] || !IdOf(entries[0]).Less(id) then 0 else 1 + CountBelow(entries[1..], id)
  }

  function CountUpTo(entries: seq<Entry>, id: ID): (n: nat)
    ensures n <= |entries|
  {
    if entries == [] || id.Less(IdOf(entries[0])) then 0 else 1 + CountUpTo(entries[1..], id)
  }

  lemma OrderedTail(entries: seq<Entry>)
    requires entries != [] && Ordered(entries)
    ensures Ordered(entries[1..])
    ensures forall i :: 0 <= i < |entries[1..]| ==> IdOf(entries[0]).Less(IdOf(entries[1..][i]))
  {
  }

  lemma {:induction false} NoneBelow(entries: seq<Entry>, id: ID, low: ID)
    requires Ordered(entries) && forall i :: 0 <= i < |entries| ==> id.Less(IdOf(entries[i]))
    ensures EntriesWithin(entries, low, id) == []
    ensures EntriesAbove(entries, id) == entries
    ensures CountUpTo(entries, id) == 0
  {
    if entries != [] {
      OrderedTail(entries);
      HeadAbove(entries[0], id, low);
      NoneBelow(entries[1..], id, low);
    }
  }

  lemma HeadAbove(e: Entry, id: ID, low: ID)
    requires Canonical(e) && id.Less(IdOf(e))
    ensures !IDWithin(e, low, id) && IDAbove(e, id)
  {
  }

  /** The reader of everything above an ID gets exactly the tail past the entries up to it. */
  lemma {:induction false} AboveIsSuffix(entries: seq<Entry>, id: ID)
    requires Ordered(entries)
    ensures EntriesAbove(entries, id) == entries[CountUpTo(entries, id)..]
  {
    if entries != [] {
      OrderedTail(entries);
      if id.Less(IdOf(entries[0])) {
        AllAbove(entries, id);
        NoneBelow(entries, id, ZERO);
      } else {
        AboveIsSuffix(entries[1..], id);
      }
    }
  }

  /** A range is one contiguous block: from the entries below its low end to those up to its
      high end, and nothing when the ends cross. */
  lemma {:induction false} WithinIsBlock(entries: seq<Entry>, low: ID, high: ID)
    requires Ordered(entries)
    ensures EntriesWithin(entries, low, high) == Block(entries, CountBelow(entries, low), CountUpTo(entries, high))
  {
    if entries != [] {
      OrderedTail(entries);
      if high.Less(IdOf(entries[0])) {
        AllAbove(entries, high);
        NoneBelow(entries, high, low);
      } else {
        WithinIsBlock(entries[1..], low, high);
        HeadWithin(entries[0], low, high);
        if !IdOf(entries[0]).Less(low) { NotBelowTail(entries[1..], low, IdOf(entries[0])); }
        WithinStep(entries, low, high, entries[1..]);
      }
    }
  }

  lemma WithinStep(entries: seq<Entry>, low: ID, high: ID, tail: seq<Entry>)
    requires entries != [] && tail == entries[1..] && !high.Less(IdOf(entries[0]))
    requires IDWithin(entries[0], low, high) <==> !IdOf(entries[0]).Less(low)
    requires !IdOf(entries[0]).Less(low) ==> CountBelow(tail, low) == 0
    requires EntriesWithin(tail, low, high) == Block(tail, CountBelow(tail, low), CountUpTo(tail, high))
    ensures EntriesWithin(entries, low, high) == Block(entries, CountBelow(entries, low), CountUpTo(entries, high))
  {
    var within := EntriesWithin(tail, low, high);
    BlockTail(entries, CountBelow(tail, low), CountUpTo(tail, high));
    if IdOf(entries[0]).Less(low) {
      assert EntriesWithin(entries, low, high) == [] + within == within;
    } else {
      assert EntriesWithin(entries, low, high) == [entries[0]] + within;
    }
  }

  lemma HeadWithin(e: Entry, low: ID, high: ID)
    requires Canonical(e) && !high.Less(IdOf(e))
    ensures IDWithin(e, low, high) <==> !IdOf(e).Less(low)
  {
  }

  lemma AllAbove(entries: seq<Entry>, id: ID)
    requires entries != [] && Ordered(entries) && id.Less(IdOf(entries[0]))
    ensures forall i :: 0 <= i < |entries| ==> id.Less(IdOf(entries[i]))
  {
    forall i | 0 <= i < |entries| ensures id.Less(IdOf(entries[i])) {
      if i > 0 { assert IdOf(entries[0]).Less(IdOf(entries[i])); }
    }
  }

  function Block(entries: seq<Entry>, a: nat, b: nat): seq<Entry>
    requires b <= |entries|
  {
    if a <= b then entries[a..b] else []
  }

  lemma BlockTail(entries: seq<Entry>, a: nat, b: nat)
    requires entries != [] && b < |entries|
    ensures Block(entries, a + 1, b + 1) == Block(entries[1..], a, b)
    ensures Block(entries, 0, b + 1) == [entries[0]] + Block(entries[1..], 0, b)
  {
    if a <= b { assert entries[a + 1..b + 1] == entries[1..][a..b]; }
    assert entries[0..b + 1] == [entries[0]] + entries[1..][0..b];
  }

  lemma NotBelowTail(entries: seq<Entry>, low: ID, head: ID)
    requires !head.Less(low) && forall i :: 0 <= i < |entries| ==> head.Less(IdOf(entries[i]))
    ensures CountBelow(entries, low) == 0
  {
  }

  lemma {:induction false} BelowZero(entries: seq<Entry>)
    requires Ordered(entries)
    ensures CountBelow(entries, ZERO) == 0
  {
  }

  lemma EntriesPartition(entries: seq<Entry>, id: ID)
    requires Ordered(entries)
    ensures EntriesWithin(entries, ZERO, id) + EntriesAbove(entries, id) == entries
  {
    WithinIsBlock(entries, ZERO, id);
    BelowZero(entries);
    AboveIsSuffix(entries, id);
    CutAt(entries, CountUpTo(entries, id));
  }

  lemma CutAt(entries: seq<Entry>, n: nat)
    requires n <= |entries|
    ensures Block(entries, 0, n) + entries[n..] == entries
  {
  }

  /** XRANGE - x followed by XREAD x is the whole stream, for every full ID x. */
  lemma ReadsPartition(d: State, k: string, x: string)
    requires StreamKey(d, k) && Ordered(StreamAt(d, k)) && ParseStreamID(x).Some?
    ensures XRange(d, k, "-", x).Entries? && ReadKey(d, k, x).Entries?
    ensures XRange(d, k, "-", x).found + ReadKey(d, k, x).found == StreamAt(d, k)
  {
    FullID(x);
    var id := ParseStreamID(x).value;
    EntriesPartition(StreamAt(d, k), id);
    if k in d.cache {
      assert XRange(d, k, "-", x) == Entries(EntriesWithin(StreamAt(d, k), ZERO, id));
      assert ReadKey(d, k, x) == Entries(EntriesAbove(StreamAt(d, k), id));
    }
  }

  lemma FullID(x: string)
    requires ParseStreamID(x).Some?
    ensures ParseIDOptionalSeq(x, true) == ParseIDOptionalSeq(x, false) == ParseStreamID(x)
  {
    DashNeeded(x);
    assert Split("-", '-')[0] == "" && !Atoi("").Parsed?;
  }

  lemma DashNeeded(x: string)
    ensures '-' !in x ==> ParseStreamID(x).None?
  {
    if '-' !in x {
      IndexOfIs(x, '-', |x|);
      assert Split(x, '-') == [x];
    }
  }

  // ---- A consumer that follows the stream --------------------------------------------------

  /** What a consumer does and sees: the server runs a section, or the consumer polls. */
  datatype Event = Server(s: Section) | Poll

  function Cursor(got: seq<Entry>): string { if got == [] then "0-0" else got[|got| - 1].id }

  function Polled(d: State, k: string, got: seq<Entry>): seq<Entry> {
    var r := ReadKey(d, k, Cursor(got));
    if r.Entries? then got + r.found else got
  }

  function ServerRun(events: seq<Event>): seq<Section> {
    if events == [] then []
    else (if events[0].Server? then [events[0].s] else []) + ServerRun(events[1..])
  }

  /** The entries received by a consumer that always reads from its last received ID. */
  function Follow(d: State, k: string, got: seq<Entry>, events: seq<Event>): seq<Entry>
    decreases |events|
  {
    if events == [] then got
    else match events[0]
      case Server(s) => Follow(Apply(d, s), k, got, events[1..])
      case Poll => Follow(d, k, Polled(d, k, got), events[1..])
  }

  lemma CursorCounts(entries: seq<Entry>, n: nat)
    requires Ordered(entries) && 0 < n <= |entries|
    ensures CountUpTo(entries, IdOf(entries[n - 1])) == n
    decreases n
  {
    OrderedTail(entries);
    var id := IdOf(entries[n - 1]);
    if n == 1 {
      NoneBelow(entries[1..], id, ZERO);
    } else {
      assert IdOf(entries[0]).Less(id);
      assert entries[1..][n - 2] == entries[n - 1];
      CursorCounts(entries[1..], n - 1);
    }
  }

  /** A poll of an ordered stream completes what was received to the whole stream. */
  lemma PollCatchesUp(d: State, k: string, got: seq<Entry>)
    requires StreamKey(d, k) && Ordered(StreamAt(d, k)) && got <= StreamAt(d, k)
    ensures Polled(d, k, got) == StreamAt(d, k)
  {
    var entries := StreamAt(d, k);
    var id := if got == [] then ZERO else IdOf(got[|got| - 1]);
    if got == [] {
      ParseFormat(ZERO);
      assert FormatID(ZERO) == "0-0";
      forall i | 0 <= i < |entries| ensures ZERO.Less(IdOf(entries[i])) { assert Canonical(entries[i]); }
      NoneBelow(entries, ZERO, ZERO);
    } else {
      assert got[|got| - 1] == entries[|got| - 1];
      assert Canonical(entries[|got| - 1]);
      CursorCounts(entries, |got|);
    }
    assert ParseStreamID(Cursor(got)) == Some(id);
    FullID(Cursor(got));
    AboveIsSuffix(entries, id);
  }

  /** Exactly once, in order: at every moment the consumer has received a prefix of the stream,
      and after a poll it has received all of it, however XADDs and polls interleave. */
  lemma {:induction false} FollowsExactly(d: State, k: string, got: seq<Entry>, events: seq<Event>)
    requires NoEmptyZSet(d) && StreamKey(d, k) && Ordered(StreamAt(d, k)) && got <= StreamAt(d, k)
    requires OnlyXAdd(d, ServerRun(events), k)
    ensures Follow(d, k, got, events) <= StreamAt(Run(d, ServerRun(events)), k)
    ensures events != [] && events[|events| - 1] == Poll ==>
              Follow(d, k, got, events) == StreamAt(Run(d, ServerRun(events)), k)
    decreases |events|
  {
    if events != [] {
      var rest := events[1..];
      match events[0]
      case Server(s) =>
        var run := ServerRun(events);
        assert run[0] == s && run[1..] == ServerRun(rest);
        assert [s][0] == s;
        StreamStep(d, s, k);
        FollowsExactly(Apply(d, s), k, got, rest);
      case Poll =>
        assert ServerRun(events) == ServerRun(rest);
        PollCatchesUp(d, k, got);
        FollowsExactly(d, k, Polled(d, k, got), rest);
    }
  }
}
