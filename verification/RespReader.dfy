/** The reader-based parser of app/resp.go and the builder loop of encodeRESPArray, proved
    against the parser and printer functions of module Resp. */
module RespReader {
  import opened Strconv
  import opened Resp

  datatype Outcome = Success(value: Value) | Failure(failure: Resp.Failure)

  /** A bufio.Reader over a finite byte stream. */
  class Reader {
    const data: string
    var pos: nat

    ghost predicate Valid()
      reads this
    {
      pos <= |data|
    }

    /** The bytes still to be read. */
    ghost function Left(): string
      reads this
      requires Valid()
    {
      data[pos..]
    }

    constructor (data: string)
      ensures Valid() && Left() == data
    {
      this.data := data;
      pos := 0;
    }

    method ReadByte() returns (c: char, ok: bool)
      requires Valid()
      modifies this
      ensures Valid()
      ensures ok <==> old(Left()) != []
      ensures ok ==> c == old(Left())[0] && Left() == old(Left())[1..]
      ensures !ok ==> Left() == old(Left())
    {
      ok := pos < |data|;
      c := '\0';
      if ok {
        c := data[pos];
        pos := pos + 1;
      }
    }

    /** ReadString('\n'): the line with its delimiter, or everything left without success. */
    method ReadString() returns (line: string, ok: bool)
      requires Valid()
      modifies this
      ensures Valid()
      ensures ok <==> ReadLine(old(Left())).Line?
      ensures ok ==> ReadLine(old(Left())) == Line(line, Left())
      ensures !ok ==> line == old(Left()) && Left() == ""
    {
      ghost var left := Left();
      var start := pos;
      while pos < |data| && data[pos] != '\n'
        invariant start <= pos <= |data|
        invariant forall j :: start <= j < pos ==> data[j] != '\n'
      {
        pos := pos + 1;
      }
      assert forall j :: 0 <= j < pos - start ==> left[j] == data[start + j];
      IndexOfIs(left, '\n', pos - start);
      ok := pos < |data|;
      if ok { pos := pos + 1; }
      line := data[start..pos];
    }

    /** io.ReadFull into a buffer of n bytes: EOF if nothing was left, else unexpected EOF. */
    method ReadFull(n: nat) returns (buf: string, failure: Resp.Failure, ok: bool)
      requires Valid()
      modifies this
      ensures Valid()
      ensures ok <==> n <= |old(Left())|
      ensures ok ==> buf == old(Left())[..n] && Left() == old(Left())[n..]
      ensures !ok ==> failure == if old(Left()) == "" then EOF else UnexpectedEOF
    {
      buf, failure := "", if pos == |data| then EOF else UnexpectedEOF;
      ok := n <= |data| - pos;
      if ok {
        buf := data[pos..pos + n];
        pos := pos + n;
      } else {
        pos := |data|;
      }
    }

    method Discard(n: nat) returns (ok: bool)
      requires Valid()
      modifies this
      ensures Valid()
      ensures ok <==> n <= |old(Left())|
      ensures ok ==> Left() == old(Left())[n..]
    {
      ok := n <= |data| - pos;
      pos := if ok then pos + n else |data|;
    }
  }

  /** The reader-based result and final position are those of the parser function. */
  ghost predicate Agrees(o: Outcome, left: string, spec: ParseResult) {
    match spec
    case Parsed(v, rest) => o == Success(v) && left == rest
    case Failed(f) => o == Failure(f)
  }

  function Prepend(first: seq<Value>, r: ItemsResult): ItemsResult {
    match r
    case Items(items, rest) => Items(first + items, rest)
    case ItemsFailed(f) => r
  }

  lemma NextItem(first: seq<Value>, left: string, count: int)
    requires count > 0
    ensures match Parse(left)
            case Failed(f) => Prepend(first, ParseItems(left, count)) == ItemsFailed(f)
            case Parsed(v, rest) =>
              Prepend(first, ParseItems(left, count)) == Prepend(first + [v], ParseItems(rest, count - 1))
  {
    match Parse(left)
    case Failed(_) =>
    case Parsed(v, rest) =>
      var more := ParseItems(rest, count - 1);
      if more.Items? { assert first + ([v] + more.items) == first + [v] + more.items; }
  }

  /** One round of the loop: it ends with the failure of an item, or one item less is to come. */
  lemma AfterItem(all: ItemsResult, items: seq<Value>, left: string, count: int, item: Outcome, rest: string)
    requires count > 0 && all == Prepend(items, ParseItems(left, count)) && Agrees(item, rest, Parse(left))
    ensures if item.Failure? then all == ItemsFailed(item.failure)
            else all == Prepend(items + [item.value], ParseItems(rest, count - 1))
  {
    NextItem(items, left, count);
  }

  method HandleRESPArray(r: Reader) returns (o: Outcome)
    requires r.Valid()
    modifies r
    ensures r.Valid() && Agrees(o, r.Left(), ParseArray(old(r.Left())))
    decreases |r.Left()|, 1
  {
    var line, ok := r.ReadString();
    if !ok { return Failure(EOF); }
    var parsed := Atoi(TrimSpace(line));
    if !parsed.Parsed? { return Failure(BadNumber); }
    var count := parsed.value;
    if count == -1 { return Success(Nil); }
    var items, failure, complete := HandleItems(r, count);
    o := if complete then Success(Arr(items)) else Failure(failure);
  }

  /** The loop of handleRESPArray. */
  method HandleItems(r: Reader, count: int) returns (items: seq<Value>, failure: Resp.Failure, complete: bool)
    requires r.Valid()
    modifies r
    ensures r.Valid()
    ensures ParseItems(old(r.Left()), count) == if complete then Items(items, r.Left()) else ItemsFailed(failure)
    decreases |r.Left()|, 3
  {
    ghost var all := ParseItems(r.Left(), count);
    items, failure, complete := [], EOF, true;
    var i := 0;
    PrependNothing(all);
    while i < count
      invariant r.Valid() && |r.Left()| <= |old(r.Left())|
      invariant 0 <= i && (count >= 0 ==> i <= count) && (count < 0 ==> i == 0)
      invariant all == Prepend(items, ParseItems(r.Left(), count - i))
    {
      ghost var left := r.Left();
      var item := ParseRESP(r);
      AfterItem(all, items, left, count - i, item, r.Left());
      if item.Failure? { return items, item.failure, false; }
      items := items + [item.value];
      i := i + 1;
    }
    PrependAll(items, r.Left());
  }

  lemma PrependNothing(r: ItemsResult)
    ensures Prepend([], r) == r
  {
    if r.Items? { assert [] + r.items == r.items; }
  }

  lemma PrependAll(items: seq<Value>, left: string)
    ensures Prepend(items, Items([], left)) == Items(items, left)
  {
    assert items + [] == items;
  }

  method HandleRESPBulkString(r: Reader) returns (o: Outcome)
    requires r.Valid()
    modifies r
    ensures r.Valid() && Agrees(o, r.Left(), ParseBulk(old(r.Left())))
  {
    var line, ok := r.ReadString();
    if !ok { return Failure(EOF); }
    var items := Atoi(TrimSpace(line));
    if !items.Parsed? { return Failure(BadNumber); }
    if items.value == -1 { return Success(Nil); }
    if items.value < -1 { return Failure(LengthPanic); }
    var buf, failure, full := r.ReadFull(items.value);
    if !full { return Failure(failure); }
    var discarded := r.Discard(2);
    if !discarded { return Failure(EOF); }
    return Success(Str(buf));
  }

  /** handleRESPSimpleString, handleRESPError and handleRESPInteger, by prefix. */
  method HandleRESPLine(prefix: char, r: Reader) returns (o: Outcome)
    requires r.Valid()
    modifies r
    ensures r.Valid() && Agrees(o, r.Left(), ParseLine(prefix, old(r.Left())))
  {
    var line, ok := r.ReadString();
    if !ok { return Failure(EOF); }
    if prefix == '+' { return Success(Str(TrimLineEnd(line))); }
    if prefix == '-' { return Failure(ErrorReply(TrimLineEnd(line))); }
    var number := Atoi(TrimSpace(line));
    if !number.Parsed? { return Failure(BadNumber); }
    return Success(Int(number.value));
  }

  /** ParseRESP returns the value the parser function gives for the unread bytes, leaves
      exactly the bytes after it, and terminates on every input. */
  method ParseRESP(r: Reader) returns (o: Outcome)
    requires r.Valid()
    modifies r
    ensures r.Valid() && Agrees(o, r.Left(), Parse(old(r.Left())))
    decreases |r.Left()|, 2
  {
    var prefix, ok := r.ReadByte();
    if !ok { return Failure(EOF); }
    if prefix == '*' {
      o := HandleRESPArray(r);
    } else if prefix == '$' {
      o := HandleRESPBulkString(r);
    } else if prefix == '+' || prefix == '-' || prefix == ':' {
      o := HandleRESPLine(prefix, r);
    } else {
      o := Failure(UnknownPrefix);
    }
  }

  lemma {:induction false} EncodeItemsSnoc(items: seq<Value>, last: Value)
    ensures EncodeItems(items + [last]) == EncodeItems(items) + EncodeItem(last)
  {
    if items == [] {
      assert ([last])[1..] == [];
    } else {
      assert (items + [last])[1..] == items[1..] + [last];
      EncodeItemsSnoc(items[1..], last);
    }
  }

  /** The encoding of the first n items. */
  function EncodeFirst(items: seq<Value>, n: nat): string
    requires n <= |items|
  {
    if n == 0 then "" else EncodeFirst(items, n - 1) + EncodeItem(items[n - 1])
  }

  lemma {:induction false} EncodeFirstIs(items: seq<Value>, n: nat)
    requires n <= |items|
    ensures EncodeFirst(items, n) == EncodeItems(items[..n])
  {
    if n > 0 {
      EncodeFirstIs(items, n - 1);
      assert items[..n] == items[..n - 1] + [items[n - 1]];
      EncodeItemsSnoc(items[..n - 1], items[n - 1]);
    }
  }

  /** encodeRESPArray builds the bytes of the printer function. */
  method EncodeRESPArray(arr: seq<Value>) returns (builder: string)
    ensures builder == EncodeArray(arr)
    decreases arr, 2
  {
    builder := "*" + FormatInt(|arr|) + "\r\n";
    builder := WriteItems(builder, arr);
  }

  /** Its loop, appending every item to the builder. */
  method WriteItems(start: string, arr: seq<Value>) returns (builder: string)
    ensures builder == start + EncodeItems(arr)
    decreases arr, 1
  {
    builder := start;
    var i := 0;
    while i < |arr|
      invariant 0 <= i <= |arr|
      invariant builder == start + EncodeFirst(arr, i)
    {
      var item := EncodeRESPItem(arr[i]);
      Glue(start, EncodeFirst(arr, i), item);
      builder := builder + item;
      i := i + 1;
    }
    EncodeFirstIs(arr, i);
    assert arr[..i] == arr;
  }

  lemma Glue(a: string, b: string, c: string)
    ensures a + b + c == a + (b + c)
  {
  }

  /** The type switch in the loop of encodeRESPArray. */
  method EncodeRESPItem(v: Value) returns (text: string)
    ensures text == EncodeItem(v)
    decreases v, 0
  {
    match v
    case Str(s) =>
      text := "$" + FormatInt(|s|) + "\r\n" + s + "\r\n";
    case Arr(items) =>
      text := EncodeRESPArray(items);
    case Nil =>
      text := "$-1\r\n";
    case Int(n) =>
      var digits := FormatInt(n);
      text := "$" + FormatInt(|digits|) + "\r\n" + digits + "\r\n";
  }
}
