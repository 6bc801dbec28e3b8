/** Stream entry identifiers `<ms>-<seq>`: the pure parsers of app/storage.go. */
module StreamIds {
  import opened Strconv

  datatype Option<+T> = None | Some(value: T)

  datatype ID = ID(ms: int, seqNo: int)
  {
    predicate Less(other: ID) { ms < other.ms || (ms == other.ms && seqNo < other.seqNo) }
    predicate Valid() { 0 <= ms <= MAX_INT64 && 0 <= seqNo <= MAX_INT64 }
  }

  const ZERO: ID := ID(0, 0)

  function FormatID(id: ID): string { FormatInt(id.ms) + "-" + FormatInt(id.seqNo) }

  function ParseStreamID(text: string): Option<ID> {
    var parts := Split(text, '-');
    if |parts| != 2 then None
    else
      var ms, seqNo := Atoi(parts[0]), Atoi(parts[1]);
      if ms.Parsed? && seqNo.Parsed? then Some(ID(ms.value, seqNo.value)) else None
  }

  /** The ID, and whether its sequence number is to be generated. */
  function ParseMaybeStarID(text: string): Option<(ID, bool)> {
    var parts := Split(text, '-');
    if |parts| != 2 then None
    else
      var ms, seqNo := Atoi(parts[0]), Atoi(parts[1]);
      if !ms.Parsed? then None
      else if parts[1] == "*" then Some((ID(ms.value, 0), true))
      else if seqNo.Parsed? then Some((ID(ms.value, seqNo.value), false))
      else None
  }

  function ParseIDOptionalSeq(text: string, isStart: bool): Option<ID> {
    if text == "-" then Some(ZERO)
    else if text == "+" then Some(ID(MAX_INT64, MAX_INT64))
    else if '-' in text then ParseStreamID(text)
    else
      var ms := Atoi(text);
      if !ms.Parsed? then None
      else Some(ID(ms.value, if isStart then 0 else MAX_INT64))
  }

  lemma {:induction false} NoDash(n: nat)
    ensures '-' !in FormatNat(n)
  {
    if n >= 10 { NoDash(n / 10); }
  }

  /** A formatted ID splits into its two numbers. */
  lemma SplitFormatted(id: ID)
    requires id.ms >= 0 && id.seqNo >= 0
    ensures Split(FormatID(id), '-') == [FormatInt(id.ms), FormatInt(id.seqNo)]
  {
    NoDash(id.ms);
    NoDash(id.seqNo);
    SplitPair(FormatInt(id.ms), '-', FormatInt(id.seqNo));
  }

  /** Every valid ID reparses to what was formatted. */
  lemma ParseFormat(id: ID)
    requires id.Valid()
    ensures ParseStreamID(FormatID(id)) == Some(id)
  {
    SplitFormatted(id);
    AtoiFormat(id.ms);
    AtoiFormat(id.seqNo);
  }

  lemma {:induction false} PartsHaveNoSeparator(s: string, sep: char)
    ensures forall i :: 0 <= i < |Split(s, sep)| ==> sep !in Split(s, sep)[i]
    decreases |s|
  {
    var i := IndexOf(s, sep);
    if i < |s| { PartsHaveNoSeparator(s[i + 1..], sep); }
  }

  lemma NonNegative(digits: string)
    requires '-' !in digits
    ensures Atoi(digits).Parsed? ==> Atoi(digits).value >= 0
  {
  }

  /** Negative numbers cannot be written in an ID: the dash always separates. */
  lemma ParsedIsValid(text: string)
    ensures ParseStreamID(text).Some? ==> ParseStreamID(text).value.Valid()
    ensures ParseMaybeStarID(text).Some? ==> ParseMaybeStarID(text).value.0.Valid()
    ensures ParseIDOptionalSeq(text, true).Some? ==> ParseIDOptionalSeq(text, true).value.Valid()
  {
    var parts := Split(text, '-');
    PartsHaveNoSeparator(text, '-');
    if |parts| == 2 {
      NonNegative(parts[0]);
      NonNegative(parts[1]);
    }
    if '-' !in text { NonNegative(text); }
  }
}
