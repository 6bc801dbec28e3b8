/** The bytes on the wire and in the file, literally: what a number, a line, a bulk string and an
    array look like, what the parser makes of every kind of header, and how text is cut. */
module Wire {
  import opened Strconv
  import opened Resp
  import opened RespStream
  import opened StoreModel
  import opened Commands
  import opened Aof
  import opened Replication

  // ---- Numbers ------------------------------------------------------------------------------------

  /** The value of digits read from the left, each with its weight. */
  function Weighed(s: string): int
    requires AllDigits(s)
  {
    if s == [] then 0 else (s[0] as int - '0' as int) * Power10(|s| - 1) + Weighed(s[1..])
  }

  lemma {:induction false} DigitsAreWeighed(s: string)
    requires AllDigits(s)
    ensures DigitsValue(s) == Weighed(s)
  {
    if |s| > 1 {
      var front := s[..|s| - 1];
      var last := s[|s| - 1] as int - '0' as int;
      DigitsAreWeighed(front);
      WeighedSnoc(front, s[|s| - 1]);
      assert front + [s[|s| - 1]] == s;
    } else if |s| == 1 {
      assert s[..0] == [] && s[1..] == [];
    }
  }

  lemma {:induction false} WeighedSnoc(s: string, c: char)
    requires AllDigits(s) && IsDigit(c)
    ensures AllDigits(s + [c]) && Weighed(s + [c]) == 10 * Weighed(s) + (c as int - '0' as int)
  {
    if s == [] {
      assert [c][1..] == [];
    } else {
      assert (s + [c])[1..] == s[1..] + [c];
      WeighedSnoc(s[1..], c);
      Tenfold(s[0] as int - '0' as int, |s|);
    }
  }

  lemma Tenfold(digit: int, k: nat)
    requires k > 0
    ensures digit * Power10(k) == 10 * (digit * Power10(k - 1))
  {
  }

  /** An optional sign and the digits after it. */
  function Unsigned(s: string): string { if s != [] && (s[0] == '-' || s[0] == '+') then s[1..] else s }

  predicate IsNumeral(s: string) { Unsigned(s) != [] && AllDigits(Unsigned(s)) }

  function Signed(s: string): int
    requires IsNumeral(s)
  {
    if s[0] == '-' then -Weighed(Unsigned(s)) else Weighed(Unsigned(s))
  }

  /** Atoi takes exactly an optional sign and one digit or more whose value fits int64. */
  lemma AtoiExactly(s: string)
    ensures Atoi(s).Parsed? <==> IsNumeral(s) && IsInt64(Signed(s))
    ensures Atoi(s).Parsed? ==> Atoi(s).value == Signed(s)
    ensures Atoi(s).Malformed? <==> !IsNumeral(s)
    ensures Atoi(s).OutOfRange? ==> Atoi(s).value == if Signed(s) < 0 then MIN_INT64 else MAX_INT64
  {
    if IsNumeral(s) { DigitsAreWeighed(Unsigned(s)); }
  }

  /** A number is written digit after digit, the last one of weight one. */
  lemma FormatDigits(n: nat, d: nat)
    requires d < 10
    ensures FormatInt(d) == ["0123456789"[d]]
    ensures n > 0 ==> FormatInt(10 * n + d) == FormatInt(n) + ["0123456789"[d]]
  {
    DigitIs(d);
    if n > 0 { assert (10 * n + d) / 10 == n && (10 * n + d) % 10 == d; }
  }

  lemma DigitIs(d: nat)
    requires d < 10
    ensures "0123456789"[d] == Digit(d)
  {
  }

  lemma FormatNegative(n: nat)
    requires n > 0
    ensures FormatInt(-(n as int)) == "-" + FormatInt(n)
  {
  }

  /** No leading zero and no plus sign. */
  lemma {:induction false} FormatIsShortest(n: nat)
    ensures FormatNat(n)[0] == '0' <==> n == 0
    ensures n == 0 ==> FormatNat(n) == "0"
  {
    if n >= 10 { FormatIsShortest(n / 10); }
  }

  // ---- Text -----------------------------------------------------------------------------------------

  predicate AllSpaces(s: string) { forall i :: 0 <= i < |s| ==> IsSpace(s[i]) }

  predicate AllLineEnds(s: string) { forall i :: 0 <= i < |s| ==> s[i] == '\r' || s[i] == '\n' }

  /** Trimming takes all the white space at both ends and nothing else. */
  lemma TrimSpaceIs(a: string, t: string, b: string)
    requires AllSpaces(a) && AllSpaces(b) && (t != [] ==> !IsSpace(t[0]) && !IsSpace(t[|t| - 1]))
    ensures TrimSpace(a + t + b) == t
  {
    if t == [] {
      assert a + t + b == a + b;
      TrimLeftIs(a + b, []);
      assert a + b + [] == a + b;
    } else {
      assert a + t + b == a + (t + b);
      TrimLeftIs(a, t + b);
      TrimRightIs(t, b);
    }
  }

  lemma {:induction false} TrimLeftIs(a: string, t: string)
    requires AllSpaces(a) && (t != [] ==> !IsSpace(t[0]))
    ensures TrimLeft(a + t) == t
  {
    if a == [] {
      assert a + t == t;
    } else {
      assert (a + t)[1..] == a[1..] + t;
      TrimLeftIs(a[1..], t);
    }
  }

  lemma {:induction false} TrimRightIs(t: string, b: string)
    requires AllSpaces(b) && (t != [] ==> !IsSpace(t[|t| - 1]))
    ensures TrimRight(t + b) == t
    decreases |b|
  {
    if b == [] {
      assert t + b == t;
    } else {
      assert (t + b)[..|t + b| - 1] == t + b[..|b| - 1];
      TrimRightIs(t, b[..|b| - 1]);
    }
  }

  lemma {:induction false} TrimLineEndIs(t: string, e: string)
    requires AllLineEnds(e) && (t != [] ==> t[|t| - 1] != '\r' && t[|t| - 1] != '\n')
    ensures TrimLineEnd(t + e) == t
    decreases |e|
  {
    if e == [] {
      assert t + e == t;
    } else {
      assert (t + e)[..|t + e| - 1] == t + e[..|e| - 1];
      TrimLineEndIs(t, e[..|e| - 1]);
    }
  }

  function Join(parts: seq<string>, sep: char): string
    requires parts != []
  {
    if |parts| == 1 then parts[0] else parts[0] + [sep] + Join(parts[1..], sep)
  }

  /** Splitting is undone by joining, and no part holds the separator: there is only one way. */
  lemma {:induction false} SplitJoins(s: string, sep: char)
    ensures Join(Split(s, sep), sep) == s
    ensures forall i :: 0 <= i < |Split(s, sep)| ==> sep !in Split(s, sep)[i]
    decreases |s|
  {
    var i := IndexOf(s, sep);
    if i < |s| {
      var more := Split(s[i + 1..], sep);
      SplitJoins(s[i + 1..], sep);
      assert Split(s, sep)[1..] == more;
      assert s == s[..i] + [sep] + s[i + 1..];
    }
  }

  // ---- Printing --------------------------------------------------------------------------------------

  lemma BulkOf(s: string, bytes: string)
    requires |s| < 10 && bytes == ['$', Digit(|s|), '\r', '\n'] + s + ['\r', '\n']
    ensures EncodeItem(Str(s)) == bytes
  {
    assert FormatInt(|s|) == [Digit(|s|)];
  }

  lemma ThreeItems(a: Value, b: Value, c: Value)
    ensures EncodeArray([a, b, c]) == "*3\r\n" + (EncodeItem(a) + (EncodeItem(b) + (EncodeItem(c) + "")))
  {
    assert [a, b, c][1..] == [b, c] && [b, c][1..] == [c] && [c][1..] == [];
    ItemsFrom([c]);
    ItemsFrom([b, c]);
    ItemsFrom([a, b, c]);
    assert FormatInt(3) == "3";
  }

  lemma ItemsFrom(items: seq<Value>)
    requires items != []
    ensures EncodeItems(items) == EncodeItem(items[0]) + EncodeItems(items[1..])
    ensures EncodeItems([]) == ""
  {
  }

  /** The bytes that a SET appends to the file and sends to the replicas. */
  lemma SetBytes()
    ensures EncodeArray(SetOf("k", "v")) == "*3\r\n" + "$3\r\nSET\r\n" + "$1\r\nk\r\n" + "$1\r\nv\r\n"
  {
    ThreeItems(Str("SET"), Str("k"), Str("v"));
    BulkOf("SET", "$3\r\nSET\r\n");
    BulkOf("k", "$1\r\nk\r\n");
    BulkOf("v", "$1\r\nv\r\n");
    Four("*3\r\n", "$3\r\nSET\r\n", "$1\r\nk\r\n", "$1\r\nv\r\n");
  }

  /** The bytes of a GETACK. */
  lemma GetAckBytes()
    ensures EncodeArray(GETACK) == "*3\r\n" + "$8\r\nREPLCONF\r\n" + "$6\r\nGETACK\r\n" + "$1\r\n*\r\n"
  {
    ThreeItems(Str("REPLCONF"), Str("GETACK"), Str("*"));
    BulkOf("REPLCONF", "$8\r\nREPLCONF\r\n");
    BulkOf("GETACK", "$6\r\nGETACK\r\n");
    BulkOf("*", "$1\r\n*\r\n");
    Four("*3\r\n", "$8\r\nREPLCONF\r\n", "$6\r\nGETACK\r\n", "$1\r\n*\r\n");
  }

  lemma Four(a: string, b: string, c: string, d: string)
    ensures a + (b + (c + (d + ""))) == a + b + c + d
  {
  }

  lemma OtherItems()
    ensures EncodeItem(Nil) == "$-1\r\n" && EncodeItem(Int(5)) == "$1\r\n5\r\n" && EncodeArray([]) == "*0\r\n"
  {
    assert FormatInt(5) == "5";
    BulkOf("5", "$1\r\n5\r\n");
    assert FormatInt(0) == "0";
  }

  // ---- Parsing ---------------------------------------------------------------------------------------

  /** A line of text, its end, and what follows. */
  lemma LineIs(text: string, tail: string)
    requires '\n' !in text
    ensures ReadLine(text + CRLF + tail) == Line(text + CRLF, tail)
  {
    var s := text + CRLF + tail;
    IndexOfIs(s, '\n', |text| + 1);
    assert s[..|text| + 2] == text + CRLF && s[|text| + 2..] == tail;
  }

  lemma HeadIs(c: char, line: string, tail: string)
    ensures ([c] + line + CRLF + tail)[1..] == line + CRLF + tail
  {
  }

  /** A bulk string: -1 is null, a length below it panics, and otherwise the length says how many
      bytes are taken. The two bytes after them are skipped, whatever they are. */
  lemma BulkHeader(n: int, tail: string)
    requires IsInt64(n)
    ensures var r := Parse("$" + FormatInt(n) + CRLF + tail);
            && (n == -1 ==> r == ParseResult.Parsed(Nil, tail))
            && (n < -1 ==> r == Failed(LengthPanic))
            && (0 <= n && n + 2 <= |tail| ==> r == ParseResult.Parsed(Str(tail[..n]), tail[n + 2..]))
            && (0 <= n && n + 2 > |tail| ==> r == Failed(if tail == [] || n <= |tail| then EOF else UnexpectedEOF))
  {
    HeadIs('$', FormatInt(n), tail);
    HeaderLine(n, tail);
  }

  /** An array: -1 is null, no items for 0 and for every other negative count, and otherwise that
      many values one after another. */
  lemma ArrayHeader(n: int, tail: string)
    requires IsInt64(n)
    ensures var r := Parse("*" + FormatInt(n) + CRLF + tail);
            && (n == -1 ==> r == ParseResult.Parsed(Nil, tail))
            && (n == 0 || n < -1 ==> r == ParseResult.Parsed(Arr([]), tail))
            && (n > 0 ==> r == match Parse(tail)
                               case Failed(f) => Failed(f)
                               case Parsed(v, rest) => Prefixed(v, ParseItems(rest, n - 1)))
  {
    var s := FormatInt(n) + CRLF + tail;
    HeadIs('*', FormatInt(n), tail);
    HeaderLine(n, tail);
    assert Parse("*" + s) == ParseArray(s) by { assert ("*" + s)[1..] == s; }
    assert "*" + s == "*" + FormatInt(n) + CRLF + tail;
    assert n != -1 ==> ParseArray(s) == match ParseItems(tail, n)
                                        case ItemsFailed(f) => Failed(f)
                                        case Items(items, rest) => ParseResult.Parsed(Arr(items), rest);
  }

  function Prefixed(v: Value, more: ItemsResult): ParseResult {
    match more
    case ItemsFailed(f) => Failed(f)
    case Items(items, rest) => ParseResult.Parsed(Arr([v] + items), rest)
  }

  /** A simple string, an error and an integer; an error is one for the caller too. */
  lemma LineHeaders(text: string, n: int, tail: string)
    requires '\n' !in text && (text != [] ==> text[|text| - 1] != '\r') && IsInt64(n)
    ensures Parse("+" + text + CRLF + tail) == ParseResult.Parsed(Str(text), tail)
    ensures Parse("-" + text + CRLF + tail) == Failed(ErrorReply(text))
    ensures Parse(":" + FormatInt(n) + CRLF + tail) == ParseResult.Parsed(Int(n), tail)
  {
    HeadIs('+', text, tail);
    HeadIs('-', text, tail);
    HeadIs(':', FormatInt(n), tail);
    LineIs(text, tail);
    TrimLineEndIs(text, CRLF);
    HeaderLine(n, tail);
  }

  /** A length that is no number is an error, for all three kinds of header. */
  lemma BadHeader(c: char, text: string, tail: string)
    requires c in {'*', '$', ':'} && '\n' !in text && !Atoi(TrimSpace(text + CRLF)).Parsed?
    ensures Parse([c] + text + CRLF + tail) == Failed(BadNumber)
  {
    HeadIs(c, text, tail);
    LineIs(text, tail);
  }

  /** Nothing else starts a value, and a header without an end of line is an end of file. */
  lemma OtherHeaders(s: string)
    ensures s != [] && s[0] !in {'*', '$', '+', '-', ':'} ==> Parse(s) == Failed(UnknownPrefix)
    ensures s == [] || (s[0] in {'*', '$', '+', '-', ':'} && '\n' !in s) ==> Parse(s) == Failed(EOF)
  {
    if s != [] && '\n' !in s { IndexOfIs(s[1..], '\n', |s| - 1); }
  }

  // ---- The file ----------------------------------------------------------------------------------------

  /** The complete commands are the longest prefix whose bytes fit. */
  lemma {:induction false} CompleteIs(cmds: seq<Command>, cut: nat)
    ensures var k := Complete(cmds, cut);
            |EncodeAll(cmds[..k])| <= cut && (k < |cmds| ==> |EncodeAll(cmds[..k + 1])| > cut)
  {
    if cmds != [] {
      var n := |EncodeArray(cmds[0])|;
      if n <= cut {
        var k := Complete(cmds[1..], cut - n);
        CompleteIs(cmds[1..], cut - n);
        FirstBytes(cmds, k + 1);
        if k < |cmds[1..]| { FirstBytes(cmds, k + 2); }
      } else {
        FirstBytes(cmds, 1);
      }
    }
  }

  lemma FirstBytes(cmds: seq<Command>, k: nat)
    requires 0 < k <= |cmds|
    ensures |EncodeAll(cmds[..k])| == |EncodeArray(cmds[0])| + |EncodeAll(cmds[1..][..k - 1])|
  {
    assert cmds[..k][1..] == cmds[1..][..k - 1];
  }

  /** Replay ends without an error at the end of the file and at an error line that says EOF, and
      nowhere else. */
  lemma EndsWhere(text: string, tail: string)
    requires '\n' !in text && (text != [] ==> text[|text| - 1] != '\r')
    ensures EndsCleanly(Parse("").failure)
    ensures EndsCleanly(Parse("-" + text + CRLF + tail).failure) <==> text == "EOF"
    ensures !EndsCleanly(UnexpectedEOF) && !EndsCleanly(BadNumber) && !EndsCleanly(UnknownPrefix)
    ensures !EndsCleanly(LengthPanic)
  {
    LineHeaders(text, 0, tail);
  }

  // ---- Replicas coming and going ------------------------------------------------------------------------

  /** A new replica is the last one and has acknowledged nothing by coming. */
  lemma ReplicaJoins(m: Repl, c: Conn)
    ensures var m' := AddReplica(m, c); m' == m.(replicas := m.replicas + [c])
    ensures c !in m.replicaOffsets ==> forall offset :: !Acknowledged(AddReplica(m, c), c, offset)
  {
  }

  /** A replica that leaves is forgotten with its acknowledgement; the others stay in their order. */
  lemma ReplicaLeaves(m: Repl, c: Conn)
    ensures var m' := RemoveReplica(m, c);
            && m' == m.(replicas := m'.replicas, replicaOffsets := m'.replicaOffsets)
            && multiset(m'.replicas) == multiset(m.replicas) - multiset{c}
            && m'.replicaOffsets.Keys == m.replicaOffsets.Keys - {c}
            && forall other :: other in m'.replicaOffsets ==> m'.replicaOffsets[other] == m.replicaOffsets[other]
  {
    LeavesOnce(m.replicas, c);
  }

  lemma {:induction false} LeavesOnce(conns: seq<Conn>, c: Conn)
    ensures multiset(WithoutFirst(conns, c)) == multiset(conns) - multiset{c}
  {
    if conns != [] {
      assert conns == [conns[0]] + conns[1..];
      if conns[0] != c { LeavesOnce(conns[1..], c); }
    }
  }

  /** It is its first place that goes. */
  lemma {:induction false} FirstLeaves(conns: seq<Conn>, c: Conn, i: nat)
    requires i < |conns| && conns[i] == c && c !in conns[..i]
    ensures WithoutFirst(conns, c) == conns[..i] + conns[i + 1..]
  {
    if i > 0 {
      assert conns[0] in conns[..i];
      assert conns[1..][..i - 1] == conns[..i][1..];
      FirstLeaves(conns[1..], c, i - 1);
    }
  }

  // ---- REPLCONF ----------------------------------------------------------------------------------------

  /** Only an ACK records an offset, for its connection alone, and has no answer; a text that is no
      number records 0. Any other REPLCONF is answered OK and changes nothing. */
  lemma ReplconfIs(m: Repl, c: Conn, arr: Command)
    ensures var (m', replies) := Replconf(m, c, arr);
            if |arr| >= 3 && ToUpper(Arg(arr, 1)) == "ACK" then
              && m' == m.(replicaOffsets := m'.replicaOffsets) && replies == []
              && m'.replicaOffsets.Keys == m.replicaOffsets.Keys + {c}
              && (forall other :: other in m.replicaOffsets && other != c ==>
                                    m'.replicaOffsets[other] == m.replicaOffsets[other])
              && m'.replicaOffsets[c] == Acked(Arg(arr, 2))
            else m' == m && replies == [OK]
  {
    AtoiExactly(Arg(arr, 2));
  }

  function Acked(text: string): int {
    if !IsNumeral(text) then 0
    else if Signed(text) < MIN_INT64 then MIN_INT64
    else if Signed(text) > MAX_INT64 then MAX_INT64
    else Signed(text)
  }
}
