/** The library calls on text the server rests on: strconv.Itoa / FormatInt, strconv.Atoi /
    ParseInt, strings.TrimSpace, TrimRight, Split and ToUpper. A Go string is a sequence of
    bytes; here it is a `string` with one character a byte. */
module Strconv {

  const MAX_INT64: int := 0x7FFF_FFFF_FFFF_FFFF
  const MIN_INT64: int := -0x8000_0000_0000_0000

  predicate IsInt64(n: int) { MIN_INT64 <= n <= MAX_INT64 }

  /** Two's-complement wrap-around of an int64 result. */
  function Wrap64(n: int): (w: int)
    ensures IsInt64(w)
    ensures IsInt64(n) ==> w == n
  {
    (n + 0x8000_0000_0000_0000) % 0x1_0000_0000_0000_0000 - 0x8000_0000_0000_0000
  }

  // ---- Decimal numbers --------------------------------------------------------

  predicate IsDigit(c: char) { '0' <= c <= '9' }
  predicate AllDigits(s: string) { forall i :: 0 <= i < |s| ==> IsDigit(s[i]) }
  function Digit(d: nat): (c: char)
    requires d < 10
    ensures IsDigit(c) && c as int - '0' as int == d
  {
    (d + '0' as int) as char
  }

  function FormatNat(n: nat): (s: string)
    ensures |s| > 0 && AllDigits(s)
  {
    if n < 10 then [Digit(n)] else FormatNat(n / 10) + [Digit(n % 10)]
  }

  function FormatInt(n: int): string { if n < 0 then "-" + FormatNat(-n) else FormatNat(n) }

  function DigitsValue(s: string): nat
    requires AllDigits(s)
  {
    if s == [] then 0 else 10 * DigitsValue(s[..|s| - 1]) + (s[|s| - 1] as int - '0' as int)
  }

  /** What Atoi / ParseInt return: the value, or an error that carries the value returned
      beside it (0 for bad syntax, the nearest int64 for a range error). */
  datatype IntParse = Parsed(value: int) | Malformed | OutOfRange(value: int)
  {
    function ValueIgnoringError(): int { if Malformed? then 0 else value }
  }

  function ParseDigits(negative: bool, digits: string): (r: IntParse)
    ensures !r.Malformed? ==> IsInt64(r.value)
  {
    if digits == [] || !AllDigits(digits) then Malformed
    else
      var n: int := if negative then 0 - DigitsValue(digits) else DigitsValue(digits);
      if n > MAX_INT64 then OutOfRange(MAX_INT64)
      else if n < MIN_INT64 then OutOfRange(MIN_INT64)
      else Parsed(n)
  }

  function Atoi(s: string): (r: IntParse)
    ensures !r.Malformed? ==> IsInt64(r.value)
  {
    if |s| > 0 && s[0] == '-' then ParseDigits(true, s[1..])
    else if |s| > 0 && s[0] == '+' then ParseDigits(false, s[1..])
    else ParseDigits(false, s)
  }

  lemma {:induction false} DigitsOfFormat(n: nat)
    ensures DigitsValue(FormatNat(n)) == n
  {
    var s := FormatNat(n);
    if n >= 10 {
      DigitsOfFormat(n / 10);
      assert s[..|s| - 1] == FormatNat(n / 10);
    } else {
      assert s[..0] == [];
    }
  }

  /** Every int64 survives formatting and parsing. */
  lemma AtoiFormat(n: int)
    requires IsInt64(n)
    ensures Atoi(FormatInt(n)) == Parsed(n)
  {
    var digits := FormatNat(if n < 0 then -n else n);
    DigitsOfFormat(if n < 0 then -n else n);
    assert ("-" + digits)[1..] == digits;
    assert IsDigit(digits[0]);
  }

  // ---- Searching and splitting --------------------------------------------------

  /** The first position of c, or |s|. */
  function IndexOf(s: string, c: char): (i: nat)
    ensures i <= |s|
    ensures forall j :: 0 <= j < i ==> s[j] != c
    ensures i < |s| ==> s[i] == c
  {
    if s == [] || s[0] == c then 0 else
      var i := IndexOf(s[1..], c) + 1;
      assert forall j :: 1 <= j < i ==> s[j] == s[1..][j - 1];
      i
  }

  /** The first occurrence is found in any string that agrees up to it. */
  lemma IndexOfIs(s: string, c: char, i: nat)
    requires i <= |s| && (forall j :: 0 <= j < i ==> s[j] != c) && (i < |s| ==> s[i] == c)
    ensures IndexOf(s, c) == i
  {
  }

  function Split(s: string, sep: char): (parts: seq<string>)
    ensures |parts| > 0
    decreases |s|
  {
    var i := IndexOf(s, sep);
    if i == |s| then [s] else [s[..i]] + Split(s[i + 1..], sep)
  }

  /** A two-part identifier splits into its parts when neither holds the separator. */
  lemma SplitPair(a: string, sep: char, b: string)
    requires sep !in a && sep !in b
    ensures Split(a + [sep] + b, sep) == [a, b]
  {
    var s := a + [sep] + b;
    IndexOfIs(s, sep, |a|);
    assert s[..|a|] == a && s[|a| + 1..] == b;
    IndexOfIs(b, sep, |b|);
  }

  // ---- Trimming and case ----------------------------------------------------------

  predicate IsSpace(c: char) { c == ' ' || '\t' <= c <= '\r' }

  function TrimLeft(s: string): string {
    if s != [] && IsSpace(s[0]) then TrimLeft(s[1..]) else s
  }

  function TrimRight(s: string): string {
    if s != [] && IsSpace(s[|s| - 1]) then TrimRight(s[..|s| - 1]) else s
  }

  function TrimSpace(s: string): string { TrimRight(TrimLeft(s)) }

  /** strings.TrimRight(s, "\r\n") */
  function TrimLineEnd(s: string): string {
    if s != [] && (s[|s| - 1] == '\r' || s[|s| - 1] == '\n') then TrimLineEnd(s[..|s| - 1]) else s
  }

  /** A header line gives back the number it was written with. */
  lemma TrimNumberLine(n: int)
    ensures TrimSpace(FormatInt(n) + "\r\n") == FormatInt(n)
  {
    var t := FormatInt(n);
    var line := t + "\r\n";
    assert line[..|line| - 1] == t + "\r";
    assert (t + "\r")[..|t|] == t;
    assert TrimLeft(line) == line;
    assert !IsSpace(t[|t| - 1]);
    assert TrimRight(line) == TrimRight(t + "\r") == TrimRight(t) == t;
  }

  function ToUpperByte(c: char): char { if 'a' <= c <= 'z' then (c as int - 32) as char else c }

  function ToUpper(s: string): string { seq(|s|, i requires 0 <= i < |s| => ToUpperByte(s[i])) }
}
