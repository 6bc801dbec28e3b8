/** RESP2 values: the printer of app/aof.go (encodeRESPArray) and the parser of app/resp.go,
    as functions on the bytes still to be read. RespReader.dfy proves the reader-based code
    against the parser. Formats: Redis serialization protocol specification, sections
    "Bulk strings", "Arrays", "Null bulk strings". */
module Resp {
  import opened Strconv

  /** The values of type `any` a parser produces and a command holds. */
  datatype Value = Nil | Str(s: string) | Int(n: int) | Arr(items: seq<Value>)

  const CRLF: string := "\r\n"

  /** Go lengths are int64. */
  predicate Fits(v: Value) {
    match v
    case Nil => true
    case Str(s) => |s| <= MAX_INT64
    case Int(n) => IsInt64(n)
    case Arr(items) => |items| <= MAX_INT64 && forall i :: 0 <= i < |items| ==> Fits(items[i])
  }

  // ---- Printer ----------------------------------------------------------------

  function EncodeBulk(s: string): string { "$" + FormatInt(|s|) + CRLF + s + CRLF }

  function EncodeItem(v: Value): string
    decreases v, 0
  {
    match v
    case Str(s) => EncodeBulk(s)
    case Arr(items) => EncodeArray(items)
    case Nil => "$-1\r\n"
    case Int(n) => EncodeBulk(FormatInt(n))
  }

  function EncodeItems(items: seq<Value>): string
    decreases items, 0
  {
    if items == [] then "" else EncodeItem(items[0]) + EncodeItems(items[1..])
  }

  function EncodeArray(items: seq<Value>): string
    decreases items, 1
  {
    "*" + FormatInt(|items|) + CRLF + EncodeItems(items)
  }

  // ---- Parser -------------------------------------------------------------------

  datatype Failure = EOF | UnexpectedEOF | BadNumber | ErrorReply(text: string) | UnknownPrefix | LengthPanic

  datatype ParseResult = Parsed(value: Value, rest: string) | Failed(failure: Failure)
  datatype LineResult = Line(text: string, rest: string) | NoLine
  datatype ItemsResult = Items(items: seq<Value>, rest: string) | ItemsFailed(failure: Failure)

  /** reader.ReadString('\n') */
  function ReadLine(s: string): (r: LineResult)
    ensures r.Line? ==> |r.rest| < |s|
  {
    var i := IndexOf(s, '\n');
    if i == |s| then NoLine else Line(s[..i + 1], s[i + 1..])
  }

  function ParseBulk(s: string): (r: ParseResult)
    ensures r.Parsed? ==> |r.rest| < |s|
  {
    match ReadLine(s)
    case NoLine => Failed(EOF)
    case Line(line, rest) =>
      var count := Atoi(TrimSpace(line));
      if !count.Parsed? then Failed(BadNumber)
      else if count.value == -1 then ParseResult.Parsed(Nil, rest)
      else if count.value < -1 then Failed(LengthPanic)
      else if count.value > |rest| then Failed(if rest == [] then EOF else UnexpectedEOF)
      else if count.value + 2 > |rest| then Failed(EOF)
      else ParseResult.Parsed(Str(rest[..count.value]), rest[count.value + 2..])
  }

  function ParseLine(prefix: char, s: string): (r: ParseResult)
    ensures r.Parsed? ==> |r.rest| < |s|
  {
    match ReadLine(s)
    case NoLine => Failed(EOF)
    case Line(line, rest) =>
      if prefix == '+' then ParseResult.Parsed(Str(TrimLineEnd(line)), rest)
      else if prefix == '-' then Failed(ErrorReply(TrimLineEnd(line)))
      else
        var number := Atoi(TrimSpace(line));
        if number.Parsed? then ParseResult.Parsed(Int(number.value), rest) else Failed(BadNumber)
  }

  function ParseArray(s: string): (r: ParseResult)
    ensures r.Parsed? ==> |r.rest| < |s|
    decreases |s|, 1
  {
    match ReadLine(s)
    case NoLine => Failed(EOF)
    case Line(line, rest) =>
      var count := Atoi(TrimSpace(line));
      if !count.Parsed? then Failed(BadNumber)
      else if count.value == -1 then ParseResult.Parsed(Nil, rest)
      else
        match ParseItems(rest, count.value)
        case ItemsFailed(f) => Failed(f)
        case Items(items, rest) => ParseResult.Parsed(Arr(items), rest)
  }

  function ParseItems(s: string, count: int): (r: ItemsResult)
    ensures r.Items? ==> |r.rest| <= |s| && |r.items| == (if count > 0 then count else 0)
    decreases |s|, 3
  {
    if count <= 0 then Items([], s)
    else
      match Parse(s)
      case Failed(f) => ItemsFailed(f)
      case Parsed(v, rest) =>
        match ParseItems(rest, count - 1)
        case ItemsFailed(f) => ItemsFailed(f)
        case Items(items, rest) => Items([v] + items, rest)
  }

  /** ParseRESP on the bytes s: the value and the bytes left, or the error. */
  function Parse(s: string): (r: ParseResult)
    ensures r.Parsed? ==> |r.rest| < |s|
    decreases |s|, 2
  {
    if s == [] then Failed(EOF)
    else if s[0] == '*' then ParseArray(s[1..])
    else if s[0] == '$' then ParseBulk(s[1..])
    else if s[0] == '+' || s[0] == '-' || s[0] == ':' then ParseLine(s[0], s[1..])
    else Failed(UnknownPrefix)
  }

  // ---- Round trip -----------------------------------------------------------------

  /** What a value is read back as: scalars become strings. */
  function Normalize(v: Value): Value
    decreases v, 0
  {
    match v
    case Int(n) => Str(FormatInt(n))
    case Arr(items) => Arr(NormalizeAll(items))
    case _ => v
  }

  function NormalizeAll(items: seq<Value>): (r: seq<Value>)
    ensures |r| == |items|
    decreases items, 0
  {
    if items == [] then [] else [Normalize(items[0])] + NormalizeAll(items[1..])
  }

  /** A header line `<n>CRLF` is read as n with the bytes after it left. */
  lemma HeaderLine(n: int, tail: string)
    requires IsInt64(n)
    ensures ReadLine(FormatInt(n) + CRLF + tail) == Line(FormatInt(n) + CRLF, tail)
    ensures Atoi(TrimSpace(FormatInt(n) + CRLF)) == IntParse.Parsed(n)
  {
    var t := FormatInt(n);
    var s := t + CRLF + tail;
    IndexOfIs(s, '\n', |t| + 1);
    assert s[..|t| + 2] == t + CRLF && s[|t| + 2..] == tail;
    TrimNumberLine(n);
    AtoiFormat(n);
  }

  lemma BulkRoundTrip(text: string, tail: string)
    requires |text| <= MAX_INT64
    ensures Parse(EncodeBulk(text) + tail) == ParseResult.Parsed(Str(text), tail)
  {
    var s := EncodeBulk(text) + tail;
    var body := text + CRLF + tail;
    assert s[1..] == FormatInt(|text|) + CRLF + body;
    HeaderLine(|text|, body);
    assert body[..|text|] == text && body[|text| + 2..] == tail;
  }

  /** Parsing a printed value followed by any bytes gives the normalised value back and
      leaves exactly those bytes: arbitrary nesting, CRLF inside strings, nulls. */
  lemma {:induction false} RoundTrip(v: Value, tail: string)
    requires Fits(v)
    ensures Parse(EncodeItem(v) + tail) == ParseResult.Parsed(Normalize(v), tail)
    decreases v, 0
  {
    match v
    case Str(s) => BulkRoundTrip(s, tail);
    case Int(n) =>
      FormatShort(n);
      BulkRoundTrip(FormatInt(n), tail);
    case Nil =>
      assert ("$-1\r\n" + tail)[1..] == FormatInt(-1) + CRLF + tail;
      HeaderLine(-1, tail);
    case Arr(items) => ArrayRoundTrip(items, tail);
  }

  lemma {:induction false} ArrayRoundTrip(items: seq<Value>, tail: string)
    requires Fits(Arr(items))
    ensures Parse(EncodeArray(items) + tail) == ParseResult.Parsed(Arr(NormalizeAll(items)), tail)
    decreases items, 1
  {
    assert (EncodeArray(items) + tail)[1..] == FormatInt(|items|) + CRLF + (EncodeItems(items) + tail);
    HeaderLine(|items|, EncodeItems(items) + tail);
    ItemsRoundTrip(items, tail);
  }

  lemma {:induction false} ItemsRoundTrip(items: seq<Value>, tail: string)
    requires forall i :: 0 <= i < |items| ==> Fits(items[i])
    ensures ParseItems(EncodeItems(items) + tail, |items|) == Items(NormalizeAll(items), tail)
    decreases items, 0
  {
    if items == [] {
      assert EncodeItems(items) + tail == tail;
    } else {
      var more := EncodeItems(items[1..]) + tail;
      assert EncodeItems(items) + tail == EncodeItem(items[0]) + more;
      RoundTrip(items[0], more);
      ItemsRoundTrip(items[1..], tail);
    }
  }

  lemma {:induction false} FormatNatShort(n: nat, k: nat, bound: int)
    requires n < bound && bound == Power10(k) && k > 0
    ensures |FormatNat(n)| <= k
  {
    if n >= 10 {
      assert k > 1;
      FormatNatShort(n / 10, k - 1, Power10(k - 1));
    }
  }

  function Power10(k: nat): int { if k == 0 then 1 else 10 * Power10(k - 1) }

  lemma FormatShort(n: int)
    requires IsInt64(n)
    ensures |FormatInt(n)| <= MAX_INT64
  {
    assert Power10(20) == 100_0000_0000_0000_0000_00 by {
      assert Power10(5) == 10_0000;
      assert Power10(10) == 100_0000_0000;
      assert Power10(15) == 1000_0000_0000_0000;
    }
    FormatNatShort(if n < 0 then -n else n, 20, Power10(20));
  }
}
