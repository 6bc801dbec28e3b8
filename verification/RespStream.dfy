/** Streams of printed commands: unique decoding, extension of partial input, and what a
    parser gets from a truncated stream. */
module RespStream {
  import opened Strconv
  import opened Resp

  // ---- Printing a parsed value -----------------------------------------------------

  /** Re-encoding what was read gives the same bytes: a fixed point after one pass. */
  lemma {:induction false} EncodeNormalize(v: Value)
    ensures EncodeItem(Normalize(v)) == EncodeItem(v)
    ensures Normalize(Normalize(v)) == Normalize(v)
    decreases v, 0
  {
    if v.Arr? { EncodeNormalizeAll(v.items); }
  }

  lemma {:induction false} EncodeNormalizeAll(items: seq<Value>)
    ensures EncodeItems(NormalizeAll(items)) == EncodeItems(items)
    ensures EncodeArray(NormalizeAll(items)) == EncodeArray(items)
    ensures NormalizeAll(NormalizeAll(items)) == NormalizeAll(items)
    decreases items, 0
  {
    if items != [] {
      EncodeNormalize(items[0]);
      EncodeNormalizeAll(items[1..]);
      assert NormalizeAll(items)[1..] == NormalizeAll(items[1..]);
    }
  }

  /** A value without integers is read back unchanged, and only such a value is. */
  predicate Textual(v: Value) {
    match v
    case Int(_) => false
    case Arr(items) => forall i :: 0 <= i < |items| ==> Textual(items[i])
    case _ => true
  }

  lemma {:induction false} NormalizeTextual(v: Value)
    ensures Normalize(v) == v <==> Textual(v)
    ensures Textual(Normalize(v))
    decreases v, 0
  {
    if v.Arr? { NormalizeAllTextual(v.items); }
  }

  lemma {:induction false} NormalizeAllTextual(items: seq<Value>)
    ensures NormalizeAll(items) == items <==> Textual(Arr(items))
    ensures Textual(Arr(NormalizeAll(items)))
    decreases items, 0
  {
    if items != [] {
      NormalizeTextual(items[0]);
      NormalizeAllTextual(items[1..]);
      var head, tail := items[0], items[1..];
      assert items == [head] + tail;
      assert Textual(Arr(items)) <==> Textual(head) && Textual(Arr(tail)) by {
        if Textual(head) && Textual(Arr(tail)) {
          forall i | 0 <= i < |items| ensures Textual(items[i]) {
            if i > 0 { assert items[i] == tail[i - 1]; }
          }
        }
        if Textual(Arr(items)) {
          forall i | 0 <= i < |tail| ensures Textual(tail[i]) { assert tail[i] == items[i + 1]; }
        }
      }
      var n := NormalizeAll(items);
      forall i | 0 <= i < |n| ensures Textual(n[i]) {
        if i > 0 { assert n[i] == NormalizeAll(tail)[i - 1]; }
      }
    }
  }

  /** Everything the parser returns has Go-sized lengths and no lengths beyond its input. */
  lemma {:induction false} ParseFits(s: string)
    requires |s| <= MAX_INT64
    ensures Parse(s).Parsed? ==> Fits(Parse(s).value)
    decreases |s|, 0
  {
    if Parse(s).Parsed? && s[0] == '*' {
      var line := ReadLine(s[1..]);
      var count := Atoi(TrimSpace(line.text)).value;
      if count != -1 { ParseItemsFit(line.rest, count); }
    }
    if Parse(s).Parsed? && (s[0] == '+' || s[0] == '-' || s[0] == ':') {
      TrimLineEndShorter(ReadLine(s[1..]).text);
    }
  }

  lemma {:induction false} TrimLineEndShorter(s: string)
    ensures |TrimLineEnd(s)| <= |s|
  {
    if s != [] { TrimLineEndShorter(s[..|s| - 1]); }
  }

  lemma {:induction false} ParseItemsFit(s: string, count: int)
    requires |s| <= MAX_INT64 && IsInt64(count)
    ensures var r := ParseItems(s, count); r.Items? ==> Fits(Arr(r.items))
    decreases |s|, 1
  {
    if count > 0 && Parse(s).Parsed? {
      ParseFits(s);
      ParseItemsFit(Parse(s).rest, count - 1);
      var more := ParseItems(Parse(s).rest, count - 1);
      if more.Items? { FitsCons(Parse(s).value, more.items); }
    }
  }

  lemma FitsCons(head: Value, tail: seq<Value>)
    requires Fits(head) && Fits(Arr(tail)) && |tail| < MAX_INT64
    ensures Fits(Arr([head] + tail))
  {
    var items := [head] + tail;
    forall i | 0 <= i < |items| ensures Fits(items[i]) {
      if i > 0 { assert items[i] == tail[i - 1]; }
    }
  }

  // ---- Partial input -----------------------------------------------------------------

  /** An error that more input can turn into success. */
  predicate Incomplete(f: Failure) { f == EOF || f == UnexpectedEOF }

  ghost predicate Extends(short: ParseResult, long: ParseResult, more: string) {
    match short
    case Parsed(v, rest) => long == ParseResult.Parsed(v, rest + more)
    case Failed(f) => !Incomplete(f) ==> long == Failed(f)
  }

  lemma ReadLineExtends(s: string, more: string)
    ensures ReadLine(s).Line? ==> ReadLine(s + more) == Line(ReadLine(s).text, ReadLine(s).rest + more)
  {
    if ReadLine(s).Line? {
      var i := IndexOf(s, '\n');
      IndexOfIs(s + more, '\n', i);
      assert (s + more)[..i + 1] == s[..i + 1];
      assert (s + more)[i + 1..] == s[i + 1..] + more;
    }
  }

  /** For arbitrary bytes: a value parsed from a prefix is the value parsed from the whole,
      and a definite error stays; only the two end-of-file errors can change. */
  lemma {:induction false} ParseExtends(s: string, more: string)
    ensures Extends(Parse(s), Parse(s + more), more)
    decreases |s|, 0
  {
    if s != [] {
      assert (s + more)[1..] == s[1..] + more;
      ReadLineExtends(s[1..], more);
      if s[0] == '*' {
        ArrayExtends(s[1..], more);
      } else if s[0] == '$' {
        BulkExtends(s[1..], more);
      }
    }
  }

  lemma BulkExtends(s: string, more: string)
    ensures Extends(ParseBulk(s), ParseBulk(s + more), more)
  {
    ReadLineExtends(s, more);
    if ReadLine(s).Line? {
      var rest := ReadLine(s).rest;
      var count := Atoi(TrimSpace(ReadLine(s).text));
      if count.Parsed? && 0 <= count.value && count.value + 2 <= |rest| {
        assert (rest + more)[..count.value] == rest[..count.value];
        assert (rest + more)[count.value + 2..] == rest[count.value + 2..] + more;
      }
    }
  }

  lemma {:induction false} ArrayExtends(s: string, more: string)
    ensures Extends(ParseArray(s), ParseArray(s + more), more)
    decreases |s|, 2
  {
    ReadLineExtends(s, more);
    if ReadLine(s).Line? {
      var count := Atoi(TrimSpace(ReadLine(s).text));
      if count.Parsed? && count.value != -1 {
        ItemsExtend(ReadLine(s).rest, count.value, more);
      }
    }
  }

  lemma {:induction false} ItemsExtend(s: string, count: int, more: string)
    ensures match ParseItems(s, count)
            case Items(items, rest) => ParseItems(s + more, count) == Items(items, rest + more)
            case ItemsFailed(f) => !Incomplete(f) ==> ParseItems(s + more, count) == ItemsFailed(f)
    decreases |s|, 1
  {
    if count > 0 {
      ParseExtends(s, more);
      if Parse(s).Parsed? { ItemsExtend(Parse(s).rest, count - 1, more); }
    }
  }

  /** A proper prefix of a printed value never parses: the parser reports end of file. */
  lemma TruncatedValue(v: Value, cut: nat)
    requires Fits(v) && cut < |EncodeItem(v)|
    ensures Parse(EncodeItem(v)[..cut]).Failed? && Incomplete(Parse(EncodeItem(v)[..cut]).failure)
  {
    var whole := EncodeItem(v);
    assert whole[..cut] + whole[cut..] == whole && whole + "" == whole;
    ParseExtends(whole[..cut], whole[cut..]);
    RoundTrip(v, "");
  }

  // ---- Command streams -----------------------------------------------------------------

  type Command = seq<Value>

  predicate FitsAll(cmds: seq<Command>) { forall i :: 0 <= i < |cmds| ==> Fits(Arr(cmds[i])) }

  function EncodeAll(cmds: seq<Command>): string {
    if cmds == [] then "" else EncodeArray(cmds[0]) + EncodeAll(cmds[1..])
  }

  /** All values parsed in a row from s, and the error that ends it. */
  function Decode(s: string): (seq<Value>, Failure)
    decreases |s|
  {
    match Parse(s)
    case Failed(f) => ([], f)
    case Parsed(v, rest) =>
      var (more, f) := Decode(rest);
      ([v] + more, f)
  }

  /** What a stream of commands is read back as. */
  function Read(cmds: seq<Command>): (r: seq<Value>)
    ensures |r| == |cmds|
  {
    if cmds == [] then [] else [Arr(NormalizeAll(cmds[0]))] + Read(cmds[1..])
  }

  lemma ReadTake(cmds: seq<Command>, k: nat)
    requires k < |cmds|
    ensures Read(cmds[..k + 1]) == [Arr(NormalizeAll(cmds[0]))] + Read(cmds[1..][..k])
  {
    assert cmds[..k + 1][1..] == cmds[1..][..k];
  }

  lemma {:induction false} EncodeAllAppend(a: seq<Command>, b: seq<Command>)
    ensures EncodeAll(a + b) == EncodeAll(a) + EncodeAll(b)
  {
    if a == [] {
      assert a + b == b;
    } else {
      assert (a + b)[1..] == a[1..] + b;
      EncodeAllAppend(a[1..], b);
    }
  }

  lemma EncodeAllOne(cmd: Command)
    ensures EncodeAll([cmd]) == EncodeArray(cmd)
  {
    assert EncodeAll([cmd][1..]) == "";
  }

  /** The first k commands of a stream whose encoding is complete within `cut` bytes. */
  function Complete(cmds: seq<Command>, cut: nat): (k: nat)
    ensures k <= |cmds|
  {
    if cmds == [] || |EncodeArray(cmds[0])| > cut then 0
    else 1 + Complete(cmds[1..], cut - |EncodeArray(cmds[0])|)
  }

  lemma DecodeCons(cmd: Command, rest: string)
    requires Fits(Arr(cmd))
    ensures Decode(EncodeArray(cmd) + rest) == ([Arr(NormalizeAll(cmd))] + Decode(rest).0, Decode(rest).1)
  {
    RoundTrip(Arr(cmd), rest);
  }

  /** Decoding any byte prefix of a stream yields exactly the commands whose encoding lies
      inside the prefix, then reports end of file. */
  lemma {:induction false} DecodePrefix(cmds: seq<Command>, cut: nat)
    requires FitsAll(cmds) && cut <= |EncodeAll(cmds)|
    ensures var (values, f) := Decode(EncodeAll(cmds)[..cut]);
            values == Read(cmds[..Complete(cmds, cut)]) && Incomplete(f)
  {
    if cmds == [] {
      assert EncodeAll(cmds)[..cut] == [];
    } else if |EncodeArray(cmds[0])| > cut {
      TruncatedValue(Arr(cmds[0]), cut);
      assert EncodeAll(cmds)[..cut] == EncodeItem(Arr(cmds[0]))[..cut];
    } else {
      var left := cut - |EncodeArray(cmds[0])|;
      DecodePrefix(cmds[1..], left);
      DecodeCons(cmds[0], EncodeAll(cmds[1..])[..left]);
      assert EncodeAll(cmds)[..cut] == EncodeArray(cmds[0]) + EncodeAll(cmds[1..])[..left];
      ReadTake(cmds, Complete(cmds[1..], left));
    }
  }

  lemma {:induction false} CompleteAll(cmds: seq<Command>)
    ensures Complete(cmds, |EncodeAll(cmds)|) == |cmds|
  {
    if cmds != [] { CompleteAll(cmds[1..]); }
  }

  /** A whole stream decodes to its commands and stops with a clean EOF. */
  lemma {:induction false} DecodeAll(cmds: seq<Command>)
    requires FitsAll(cmds)
    ensures Decode(EncodeAll(cmds)) == (Read(cmds), EOF)
  {
    if cmds != [] {
      DecodeCons(cmds[0], EncodeAll(cmds[1..]));
      DecodeAll(cmds[1..]);
    }
  }

  /** Streams decode uniquely: equal bytes come from commands that read the same. */
  lemma EncodeAllInjective(a: seq<Command>, b: seq<Command>)
    requires FitsAll(a) && FitsAll(b) && EncodeAll(a) == EncodeAll(b)
    ensures Read(a) == Read(b)
  {
    DecodeAll(a);
    DecodeAll(b);
  }
}
