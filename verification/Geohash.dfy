/** Geohash cells: app/geo-coordinate-helper.go and the range check of GEOADD.
    The machine words are bit-vectors; the reference definitions work on
    mathematical integers, one bit at a time. */
module Geohash {

  // ---- The code's bit tricks ------------------------------------------------

  function SpreadInt32ToInt64(v: bv32): bv64 {
    var r0 := v as bv64;
    var r1 := (r0 | (r0 << 16)) & 0x0000FFFF0000FFFF;
    var r2 := (r1 | (r1 << 8)) & 0x00FF00FF00FF00FF;
    var r3 := (r2 | (r2 << 4)) & 0x0F0F0F0F0F0F0F0F;
    var r4 := (r3 | (r3 << 2)) & 0x3333333333333333;
    (r4 | (r4 << 1)) & 0x5555555555555555
  }

  function CompactInt64ToInt32(v: bv64): bv32 {
    var r0 := v & 0x5555555555555555;
    var r1 := (r0 | (r0 >> 1)) & 0x3333333333333333;
    var r2 := (r1 | (r1 >> 2)) & 0x0F0F0F0F0F0F0F0F;
    var r3 := (r2 | (r2 >> 4)) & 0x00FF00FF00FF00FF;
    var r4 := (r3 | (r3 >> 8)) & 0x0000FFFF0000FFFF;
    var r5 := (r4 | (r4 >> 16)) & 0x00000000FFFFFFFF;
    r5 as bv32
  }

  /** Both words spread by s, the second one shifted by one bit. */
  function Weave(s: bv32 -> bv64, x: bv32, y: bv32): bv64 {
    var xSpread, ySpread := s(x), s(y);
    var yShifted := ySpread << 1;
    xSpread | yShifted
  }

  function Interleave(x: bv32, y: bv32): bv64 { Weave(SpreadInt32ToInt64, x, y) }

  // ---- Reference definitions: one bit at a time on integers -------------------

  function Pow2(k: nat): (p: nat)
    ensures p > 0
  {
    if k == 0 then 1 else 2 * Pow2(k - 1)
  }

  /** The bits of n moved to the even positions. */
  function Spaced(n: nat): nat { if n == 0 then 0 else 4 * Spaced(n / 2) + n % 2 }

  /** The Morton code: x on the even bits, y on the odd bits. */
  function Morton(x: nat, y: nat): nat { Spaced(x) + 2 * Spaced(y) }

  // ---- The tricks refine the reference ----------------------------------------

  function Upper(x: bv32): bv31 { (x >> 1) as bv31 }
  function Lower(x: bv32): bv1 { (x & 1) as bv1 }
  function Rest(code: bv64): bv62 { (code >> 2) as bv62 }
  function OddBit(code: bv64): bv1 { ((code >> 1) & 1) as bv1 }
  function EvenBit(code: bv64): bv1 { (code & 1) as bv1 }

  lemma WordBits(x: bv32)
    ensures x == ((Upper(x) as bv32) << 1) | Lower(x) as bv32
    ensures Upper(x) as bv32 == x >> 1
  {
  }

  lemma CodeBits(code: bv64)
    ensures code == ((Rest(code) as bv64) << 2) | ((OddBit(code) as bv64) << 1) | EvenBit(code) as bv64
  {
  }

  lemma JoinWord(h: bv31, b: bv1)
    ensures (((h as bv32) << 1) | b as bv32) as nat == 2 * (h as nat) + b as nat
    ensures (h as bv32) as nat == h as nat
  {
  }

  lemma JoinCode(h: bv62, b1: bv1, b0: bv1)
    ensures (((h as bv64) << 2) | ((b1 as bv64) << 1) | b0 as bv64) as nat
         == 4 * (h as nat) + 2 * (b1 as nat) + b0 as nat
    ensures (h as bv64) as nat == h as nat
  {
  }

  function Value32(x: bv32): nat { x as nat }
  function Value64(code: bv64): nat { code as nat }
  function BitValue(b: bv1): nat { b as nat }

  /** A word is twice its upper bits plus its low bit. */
  lemma WordNumber(x: bv32, h: bv31, half: bv32, b: bv1)
    requires x == ((h as bv32) << 1) | b as bv32 && half == h as bv32
    ensures Value32(x) == 2 * Value32(half) + BitValue(b)
  {
    JoinWord(h, b);
  }

  lemma CodeNumber(code: bv64, h: bv62, half: bv64, b1: bv1, b0: bv1)
    requires code == ((h as bv64) << 2) | ((b1 as bv64) << 1) | b0 as bv64 && half == h as bv64
    ensures Value64(code) == 4 * Value64(half) + 2 * BitValue(b1) + BitValue(b0)
  {
    JoinCode(h, b1, b0);
  }

  lemma Halve(x: bv32) returns (half: bv32)
    ensures half == Upper(x) as bv32
    ensures Value32(x) == 2 * Value32(half) + BitValue(Lower(x))
  {
    WordBits(x);
    half := Upper(x) as bv32;
    WordNumber(x, Upper(x), half, Lower(x));
  }

  /** One step of the reference for a spreading function s: shift by two, append the low bit. */
  ghost predicate SpreadsAt(s: bv32 -> bv64, x: bv32, h: bv31) {
    && s(x) == (s(h as bv32) << 2) | Lower(x) as bv64
    && s(h as bv32) & 0xE000_0000_0000_0000 == 0
  }

  lemma SpreadShift(x: bv32)
    ensures SpreadInt32ToInt64(x) == (SpreadInt32ToInt64(x >> 1) << 2) | (x & 1) as bv64
  {
  }

  lemma SpreadTop(x: bv32)
    ensures SpreadInt32ToInt64(x >> 1) & 0xE000_0000_0000_0000 == 0
  {
  }

  lemma SpreadsWhere(s: bv32 -> bv64, x: bv32)
    requires s(x) == (s(x >> 1) << 2) | (x & 1) as bv64
    requires s(x >> 1) & 0xE000_0000_0000_0000 == 0
    ensures SpreadsAt(s, x, Upper(x))
  {
    WordBits(x);
  }

  lemma SpreadStep(x: bv32)
    ensures SpreadsAt(SpreadInt32ToInt64, x, Upper(x))
  {
    SpreadShift(x);
    SpreadTop(x);
    SpreadsWhere(SpreadInt32ToInt64, x);
  }

  lemma SpreadZero()
    ensures SpreadInt32ToInt64(0) == 0
  {
  }

  lemma WeaveBits(s: bv32 -> bv64, x: bv32, y: bv32, hx: bv31, hy: bv31)
    requires SpreadsAt(s, x, hx) && SpreadsAt(s, y, hy)
    ensures var code := Weave(s, x, y);
            && Rest(code) as bv64 == Weave(s, hx as bv32, hy as bv32)
            && OddBit(code) == Lower(y) && EvenBit(code) == Lower(x)
  {
  }

  // ---- Half of a word, a quarter of a code ------------------------------------------------------

  function Half(x: bv32): bv32 { x >> 1 }

  function Top(code: bv64): bv64 { Rest(code) as bv64 }

  lemma HalfIs(x: bv32)
    ensures Upper(x) as bv32 == Half(x)
  {
  }

  lemma WeaveAtHalves(s: bv32 -> bv64, x: bv32, y: bv32, hx: bv32, hy: bv32)
    requires SpreadsAt(s, x, Upper(x)) && SpreadsAt(s, y, Upper(y))
    requires hx == Upper(x) as bv32 && hy == Upper(y) as bv32
    ensures Top(Weave(s, x, y)) == Weave(s, hx, hy)
    ensures OddBit(Weave(s, x, y)) == Lower(y) && EvenBit(Weave(s, x, y)) == Lower(x)
  {
    WeaveBits(s, x, y, Upper(x), Upper(y));
  }

  /** The code of two words is the code of their halves and then their low bits. */
  ghost predicate Halving<W(!new), C, B>(f: (W, W) -> C, half: W -> W, top: C -> C, odd: C -> B, even: C -> B,
                                             low: W -> B) {
    forall x: W, y: W :: top(f(x, y)) == f(half(x), half(y)) && odd(f(x, y)) == low(y) && even(f(x, y)) == low(x)
  }

  /** The functions are parameters so that the proof of Halving works on names, not on bits. */
  lemma WeaveHalves(s: bv32 -> bv64, weave: (bv32 -> bv64, bv32, bv32) -> bv64, half: bv32 -> bv32, top: bv64 -> bv64,
                    odd: bv64 -> bv1, even: bv64 -> bv1, low: bv32 -> bv1, x: bv32, y: bv32)
    requires forall a: bv32 :: SpreadsAt(s, a, Upper(a))
    requires forall a: bv32 :: half(a) == Upper(a) as bv32 && low(a) == Lower(a)
    requires forall c: bv64 :: top(c) == Top(c) && odd(c) == OddBit(c) && even(c) == EvenBit(c)
    requires forall a, b :: weave(s, a, b) == Weave(s, a, b)
    ensures var code := weave(s, x, y);
            top(code) == weave(s, half(x), half(y)) && odd(code) == low(y) && even(code) == low(x)
  {
    WeaveAtHalves(s, x, y, half(x), half(y));
  }

  lemma InterleaveHalves()
    ensures Halving(Interleave, Half, Top, OddBit, EvenBit, Lower)
  {
    SpreadsEverywhere();
    forall a ensures Half(a) == Upper(a) as bv32 { HalfIs(a); }
    forall x: bv32, y: bv32
      ensures var code := Interleave(x, y);
              Top(code) == Interleave(Half(x), Half(y)) && OddBit(code) == Lower(y) && EvenBit(code) == Lower(x)
    {
      WeaveHalves(SpreadInt32ToInt64, Weave, Half, Top, OddBit, EvenBit, Lower, x, y);
    }
  }

  lemma CodeParts(code: bv64)
    ensures Value64(code) == 4 * Value64(Top(code)) + 2 * BitValue(OddBit(code)) + BitValue(EvenBit(code))
  {
    CodeNamed(code, Top(code), EvenBit(code), OddBit(code));
  }

  lemma CodeNamed(code: bv64, half: bv64, x: bv1, y: bv1)
    requires Rest(code) as bv64 == half && OddBit(code) == y && EvenBit(code) == x
    ensures Value64(code) == 4 * Value64(half) + 2 * BitValue(y) + BitValue(x)
  {
    CodeBits(code);
    CodeNumber(code, Rest(code), half, y, x);
  }

  lemma WordParts(x: bv32)
    ensures Value32(x) == 2 * Value32(Half(x)) + BitValue(Lower(x))
  {
    var half := Halve(x);
    HalfIs(x);
  }

  lemma MortonAppend(x: nat, y: nat, b: nat, c: nat)
    requires b <= 1 && c <= 1
    ensures Morton(2 * x + b, 2 * y + c) == 4 * Morton(x, y) + 2 * c + b
  {
    SpacedAppend(x, b);
    SpacedAppend(y, c);
  }

  lemma SpacedAppend(n: nat, b: nat)
    requires b <= 1
    ensures Spaced(2 * n + b) == 4 * Spaced(n) + b
  {
    assert (2 * n + b) / 2 == n && (2 * n + b) % 2 == b;
  }

  lemma MortonStep(hx: nat, hy: nat, b: nat, c: nat, x: nat, y: nat, code: nat)
    requires b <= 1 && c <= 1 && x == 2 * hx + b && y == 2 * hy + c && code == 4 * Morton(hx, hy) + 2 * c + b
    ensures code == Morton(x, y)
  {
    MortonAppend(hx, hy, b, c);
  }

  ghost predicate WordSplits<W, B>(value: W -> nat, half: W -> W, low: W -> B, bit: B -> nat, w: W) {
    value(w) == 2 * value(half(w)) + bit(low(w)) && bit(low(w)) <= 1
  }

  ghost predicate CodeSplits<C, B>(code: C -> nat, top: C -> C, odd: C -> B, even: C -> B, bit: B -> nat, c: C) {
    code(c) == 4 * code(top(c)) + 2 * bit(odd(c)) + bit(even(c))
  }

  ghost predicate ZeroCode<W, C>(f: (W, W) -> C, value: W -> nat, code: C -> nat, u: W, v: W) {
    value(u) == 0 && value(v) == 0 ==> code(f(u, v)) == 0
  }

  /** A function that is halving computes the Morton code, on the numbers its words and codes
      stand for. */
  lemma {:induction false} MortonByHalves<W(!new), C(!new), B>(
      f: (W, W) -> C, half: W -> W, top: C -> C, odd: C -> B, even: C -> B, low: W -> B,
      value: W -> nat, code: C -> nat, bit: B -> nat, x: W, y: W)
    requires Halving(f, half, top, odd, even, low)
    requires forall w :: WordSplits(value, half, low, bit, w)
    requires forall c :: CodeSplits(code, top, odd, even, bit, c)
    requires forall u, v :: ZeroCode(f, value, code, u, v)
    ensures code(f(x, y)) == Morton(value(x), value(y))
    decreases value(x) + value(y)
  {
    assert WordSplits(value, half, low, bit, x) && WordSplits(value, half, low, bit, y);
    if value(x) + value(y) == 0 {
      assert ZeroCode(f, value, code, x, y);
    } else {
      MortonByHalves(f, half, top, odd, even, low, value, code, bit, half(x), half(y));
      assert CodeSplits(code, top, odd, even, bit, f(x, y)) && top(f(x, y)) == f(half(x), half(y));
      MortonStep(value(half(x)), value(half(y)), bit(low(x)), bit(low(y)), value(x), value(y), code(f(x, y)));
    }
  }

  lemma WeaveZero(s: bv32 -> bv64, x: bv32, y: bv32)
    requires s(0) == 0 && Value32(x) == 0 && Value32(y) == 0
    ensures Value64(Weave(s, x, y)) == 0
  {
    WordBack(x);
    WordBack(y);
  }

  lemma WordBack(w: bv32)
    ensures Value32(w) as bv32 == w
  {
  }

  lemma InterleaveZero(x: bv32, y: bv32)
    ensures Value32(x) == 0 && Value32(y) == 0 ==> Value64(Interleave(x, y)) == 0
  {
    SpreadZero();
    if Value32(x) == 0 && Value32(y) == 0 { WeaveZero(SpreadInt32ToInt64, x, y); }
  }

  lemma BitSize(b: bv1)
    ensures BitValue(b) <= 1
  {
  }

  /** interleave computes the Morton code of every pair of words. */
  lemma InterleaveIsMorton(x: bv32, y: bv32)
    ensures Value64(Interleave(x, y)) == Morton(Value32(x), Value32(y))
  {
    InterleaveHalves();
    forall w ensures WordSplits(Value32, Half, Lower, BitValue, w) { WordParts(w); BitSize(Lower(w)); }
    forall c ensures CodeSplits(Value64, Top, OddBit, EvenBit, BitValue, c) { CodeParts(c); }
    forall u, v ensures ZeroCode(Interleave, Value32, Value64, u, v) { InterleaveZero(u, v); }
    MortonByHalves(Interleave, Half, Top, OddBit, EvenBit, Lower, Value32, Value64, BitValue, x, y);
  }

  lemma SpreadsEverywhere()
    ensures forall a: bv32 :: SpreadsAt(SpreadInt32ToInt64, a, Upper(a))
    ensures SpreadInt32ToInt64(0) == 0
  {
    forall a: bv32 ensures SpreadsAt(SpreadInt32ToInt64, a, Upper(a)) { SpreadStep(a); }
    SpreadZero();
  }

  /** compact inverts spread. */
  lemma CompactSpread(x: bv32)
    ensures CompactInt64ToInt32(SpreadInt32ToInt64(x)) == x
  {
  }

  /** compact reads the two coordinates back from a code, and every code is read: interleave
      is a bijection between word pairs and codes. */
  lemma CompactInterleave(x: bv32, y: bv32)
    ensures CompactInt64ToInt32(Interleave(x, y)) == x
    ensures CompactInt64ToInt32(Interleave(x, y) >> 1) == y
  {
  }

  lemma InterleaveCompact(code: bv64)
    ensures Interleave(CompactInt64ToInt32(code), CompactInt64ToInt32(code >> 1)) == code
  {
  }

  // ---- Order and size of the Morton code ----------------------------------------

  lemma {:induction false} SpacedMonotone(a: nat, b: nat)
    requires a < b
    ensures Spaced(a) < Spaced(b)
  {
    if a / 2 < b / 2 {
      SpacedMonotone(a / 2, b / 2);
    } else {
      assert b / 2 == a / 2 && b % 2 == 1 && a % 2 == 0;
    }
  }

  /** The code is strictly monotone in each coordinate. */
  lemma MortonMonotone(x: nat, x': nat, y: nat, y': nat)
    ensures x < x' && y <= y' ==> Morton(x, y) < Morton(x', y')
    ensures x <= x' && y < y' ==> Morton(x, y) < Morton(x', y')
  {
    if x < x' { SpacedMonotone(x, x'); }
    if y < y' { SpacedMonotone(y, y'); }
  }

  lemma {:induction false} SpacedOfPower(k: nat)
    ensures Spaced(Pow2(k)) == Pow2(2 * k)
  {
    if k > 0 {
      SpacedOfPower(k - 1);
      SpacedAppend(Pow2(k - 1), 0);
      FourTimes(k - 1);
    }
  }

  lemma FourTimes(k: nat)
    ensures Pow2(2 * (k + 1)) == 4 * Pow2(2 * k)
  {
    assert Pow2(2 * k + 2) == 2 * Pow2(2 * k + 1);
  }

  /** Below 2^k the spaced bits stay below a third of 4^k. */
  lemma {:induction false} SpacedBound(n: nat, k: nat)
    requires n < Pow2(k)
    ensures 3 * Spaced(n) < Pow2(2 * k)
  {
    if k > 0 {
      SpacedBound(n / 2, k - 1);
      FourTimes(k - 1);
    }
  }

  /** n without its j low bits. */
  function Drop(n: nat, j: nat): nat { if j == 0 then n else Drop(n / 2, j - 1) }

  /** Dropping j low bits of both coordinates drops 2j bits of the code. */
  lemma {:induction false} MortonPrefix(x: nat, y: nat, j: nat)
    ensures Morton(Drop(x, j), Drop(y, j)) == Drop(Morton(x, y), 2 * j)
  {
    if j > 0 {
      MortonPrefix(x / 2, y / 2, j - 1);
      assert Morton(x / 2, y / 2) == Morton(x, y) / 2 / 2;
    }
  }

  const GRID: nat := 0x400_0000   // 2^26 cells per axis

  lemma GridPowers()
    ensures Pow2(26) == GRID && Pow2(52) == 0x10_0000_0000_0000 && Pow2(53) == 0x20_0000_0000_0000
  {
    PowerSum(13, 13);
    PowerSum(26, 26);
    PowerSum(52, 1);
    assert Pow2(13) == 8192 by {
      assert Pow2(4) == 16;
      PowerSum(4, 4);
      PowerSum(8, 5);
      assert Pow2(5) == 32;
    }
    assert Pow2(1) == 2;
  }

  lemma {:induction false} PowerSum(a: nat, b: nat)
    ensures Pow2(a + b) == Pow2(a) * Pow2(b)
  {
    if a > 0 {
      PowerSum(a - 1, b);
      Regroup(Pow2(a - 1), Pow2(b));
    }
  }

  lemma Regroup(m: nat, n: nat)
    ensures (2 * m) * n == 2 * (m * n)
  {
  }

  /** The integers a float64 holds exactly: a 53-bit significand times a power of two. */
  ghost predicate ExactInFloat64(n: nat) {
    exists m: nat, e: nat {:trigger m * Pow2(e)} :: m < 0x20_0000_0000_0000 && n == m * Pow2(e)
  }

  /** Scores of in-range cells: below 2^53 exactly when the longitude cell is inside the
      grid; float64 holds the score exactly unless the longitude cell is the extra one at
      +180 degrees and the latitude cell is odd. */
  lemma ScoreFitsFloat64(x: nat, y: nat)
    requires x <= GRID && y <= GRID
    ensures Morton(x, y) < 0x20_0000_0000_0000 <==> y < GRID
    ensures ExactInFloat64(Morton(x, y)) <==> y < GRID || x % 2 == 0
  {
    SpacedGrid(x);
    SpacedGrid(y);
    SpacedParity(x);
    ParityIs(Morton(x, y), Spaced(x) / 2 + Spaced(y), x % 2);
    ExactIff(Morton(x, y));
  }

  lemma SpacedGrid(n: nat)
    requires n <= GRID
    ensures n < GRID ==> 3 * Spaced(n) < 0x10_0000_0000_0000
    ensures n == GRID ==> Spaced(n) == 0x10_0000_0000_0000
  {
    GridPowers();
    if n < GRID { SpacedBound(n, 26); } else { SpacedOfPower(26); }
  }

  lemma SpacedParity(n: nat)
    ensures Spaced(n) % 2 == n % 2
  {
    if n > 0 { ParityIs(Spaced(n), 2 * Spaced(n / 2), n % 2); }
  }

  lemma ParityIs(s: nat, k: nat, b: nat)
    requires s == 2 * k + b && b <= 1
    ensures s % 2 == b
  {
  }

  /** Below 2^54 the exact integers are those below 2^53 and the even ones. */
  lemma ExactIff(s: nat)
    requires s < 0x40_0000_0000_0000
    ensures ExactInFloat64(s) <==> s < 0x20_0000_0000_0000 || s % 2 == 0
  {
    if s < 0x20_0000_0000_0000 {
      SmallIsExact(s);
    } else if s % 2 == 0 {
      EvenIsExact(s);
    } else {
      OddIsNotExact(s);
    }
  }

  lemma SmallIsExact(s: nat)
    requires s < 0x20_0000_0000_0000
    ensures ExactInFloat64(s)
  {
    assert s == s * Pow2(0);
  }

  lemma EvenIsExact(s: nat)
    requires s % 2 == 0 && s < 0x40_0000_0000_0000
    ensures ExactInFloat64(s)
  {
    var m := s / 2;
    assert Pow2(1) == 2;
    assert m < 0x20_0000_0000_0000 && s == m * Pow2(1);
  }

  lemma OddIsNotExact(s: nat)
    requires s % 2 == 1 && s >= 0x20_0000_0000_0000
    ensures !ExactInFloat64(s)
  {
    forall m: nat, e: nat {:trigger m * Pow2(e)} | m < 0x20_0000_0000_0000 ensures s != m * Pow2(e) {
      if e > 0 {
        var p := Pow2(e - 1);
        assert m * (2 * p) == 2 * (m * p);
      }
    }
  }

  // ---- Coordinates over the reals -----------------------------------------------

  const MIN_LATITUDE: real := -85.05112878
  const MAX_LATITUDE: real := 85.05112878
  const MIN_LONGITUDE: real := -180.0
  const MAX_LONGITUDE: real := 180.0
  const LATITUDE_RANGE: real := MAX_LATITUDE - MIN_LATITUDE
  const LONGITUDE_RANGE: real := MAX_LONGITUDE - MIN_LONGITUDE
  const CELLS: real := 67108864.0

  datatype Coordinates = Coordinates(latitude: real, longitude: real)

  /** The range check GEOADD makes before it encodes. */
  predicate InRange(p: Coordinates) {
    && MIN_LONGITUDE <= p.longitude <= MAX_LONGITUDE
    && MIN_LATITUDE <= p.latitude <= MAX_LATITUDE
  }

  function CellOf(v: real, min: real, range: real): int
    requires range > 0.0
  {
    (CELLS * (v - min) / range).Floor
  }

  lemma CellInGrid(v: real, min: real, range: real)
    requires range > 0.0 && min <= v <= min + range
    ensures 0 <= CellOf(v, min, range) <= GRID
    ensures CellOf(v, min, range) == GRID <==> v == min + range
  {
    var q := CELLS * (v - min) / range;
    QuotientBounds(v - min, range);
    assert v == min + range ==> v - min == range;
  }

  lemma QuotientBounds(d: real, range: real)
    requires range > 0.0 && 0.0 <= d <= range
    ensures 0.0 <= CELLS * d / range <= CELLS
    ensures d < range <==> CELLS * d / range < CELLS
  {
    var gap := range - d;
    assert CELLS * d / range == CELLS - CELLS * gap / range by {
      assert CELLS * range / range == CELLS;
      assert CELLS * d == CELLS * range - CELLS * gap;
    }
    QuotientSign(CELLS * d, range);
    QuotientSign(CELLS * gap, range);
  }

  lemma QuotientSign(a: real, range: real)
    requires range > 0.0 && a >= 0.0
    ensures a / range >= 0.0
    ensures a / range > 0.0 <==> a > 0.0
  {
  }

  /** The code of a pair of cells. */
  function CodeOf(x: nat, y: nat): bv64
    requires x <= GRID && y <= GRID
  {
    Interleave(x as bv32, y as bv32)
  }

  function Encode(p: Coordinates): bv64
    requires InRange(p)
  {
    CellInGrid(p.latitude, MIN_LATITUDE, LATITUDE_RANGE);
    CellInGrid(p.longitude, MIN_LONGITUDE, LONGITUDE_RANGE);
    CodeOf(CellOf(p.latitude, MIN_LATITUDE, LATITUDE_RANGE), CellOf(p.longitude, MIN_LONGITUDE, LONGITUDE_RANGE))
  }

  /** The middle of cell n; the upper edge uses uint32 addition, which wraps. */
  function CellMiddle(n: nat, min: real, range: real): real {
    var low := min + range * (n as real / CELLS);
    var high := min + range * (((n + 1) % 0x1_0000_0000) as real / CELLS);
    (low + high) / 2.0
  }

  function Decode(code: bv64): Coordinates {
    Coordinates(CellMiddle(Value32(CompactInt64ToInt32(code)), MIN_LATITUDE, LATITUDE_RANGE),
                CellMiddle(Value32(CompactInt64ToInt32(code >> 1)), MIN_LONGITUDE, LONGITUDE_RANGE))
  }

  lemma Nibble(n: nat)
    requires n < 0x10
    ensures (n as bv4) as nat == n
  {
  }

  lemma JoinBytes(a: bv4, b: bv4, c: bv8, d: bv8, e: bv16, f: bv16)
    ensures (((a as bv8) << 4) | b as bv8) as nat == (a as nat) * 0x10 + b as nat
    ensures (((c as bv16) << 8) | d as bv16) as nat == (c as nat) * 0x100 + d as nat
    ensures (((e as bv32) << 16) | f as bv32) as nat == (e as nat) * 0x1_0000 + f as nat
  {
  }

  lemma ByteOf(n: nat) returns (w: bv8)
    requires n < 0x100
    ensures w as nat == n
  {
    Nibble(n / 0x10);
    Nibble(n % 0x10);
    var h, l := (n / 0x10) as bv4, (n % 0x10) as bv4;
    w := ((h as bv8) << 4) | l as bv8;
    JoinBytes(h, l, 0, 0, 0, 0);
  }

  lemma ShortOf(n: nat) returns (w: bv16)
    requires n < 0x1_0000
    ensures w as nat == n
  {
    var h := ByteOf(n / 0x100);
    var l := ByteOf(n % 0x100);
    w := ((h as bv16) << 8) | l as bv16;
    JoinBytes(0, 0, h, l, 0, 0);
  }

  /** Every number below 2^32 survives the conversion to uint32. */
  lemma WordOf(n: nat)
    requires n < 0x1_0000_0000
    ensures Value32(n as bv32) == n
  {
    var h := ShortOf(n / 0x1_0000);
    var l := ShortOf(n % 0x1_0000);
    var w := ((h as bv32) << 16) | l as bv32;
    JoinBytes(0, 0, 0, 0, h, l);
    WordBack(w);
  }

  /** The middle of the cell of v is within half a cell of v and lies in the same cell. */
  lemma MiddleIsClose(v: real, min: real, range: real)
    requires range > 0.0 && min <= v <= min + range
    ensures 0 <= CellOf(v, min, range) <= GRID
    ensures var m := CellMiddle(CellOf(v, min, range), min, range);
            && -(range / (2.0 * CELLS)) <= m - v <= range / (2.0 * CELLS)
            && CellOf(m, min, range) == CellOf(v, min, range)
  {
    CellInGrid(v, min, range);
    var n := CellOf(v, min, range);
    var c := n as real + 0.5;
    MiddleIs(n, min, range);
    OffsetBounds(v, min, range, c);
    QuotientForth(c, range);
    var m := CellMiddle(n, min, range);
    assert m - min == (range / CELLS) * c;
    assert CELLS * (m - min) / range == c;
  }

  lemma OffsetBounds(v: real, min: real, range: real, c: real)
    requires range > 0.0 && -0.5 <= c - CELLS * (v - min) / range <= 0.5
    ensures -(range / (2.0 * CELLS)) <= min + (range / CELLS) * c - v <= range / (2.0 * CELLS)
  {
    var q := CELLS * (v - min) / range;
    QuotientBack(v - min, range);
    HalfStep(range);
    ScaleBounds(v, min, range / CELLS, c, q);
  }

  lemma HalfStep(range: real)
    ensures (range / CELLS) * 0.5 == range / (2.0 * CELLS)
  {
  }

  lemma MiddleIs(n: nat, min: real, range: real)
    requires n <= GRID
    ensures CellMiddle(n, min, range) == min + (range / CELLS) * (n as real + 0.5)
  {
    assert (n + 1) % 0x1_0000_0000 == n + 1;
    var a := n as real;
    assert range * (a / CELLS) == (range / CELLS) * a;
    assert range * ((a + 1.0) / CELLS) == (range / CELLS) * (a + 1.0);
  }

  lemma QuotientBack(d: real, range: real)
    requires range > 0.0
    ensures d == (range / CELLS) * (CELLS * d / range)
  {
    var q := CELLS * d / range;
    assert q * range == CELLS * d;
    assert (range / CELLS) * q == (range * q) / CELLS;
  }

  lemma QuotientForth(c: real, range: real)
    requires range > 0.0
    ensures CELLS * ((range / CELLS) * c) / range == c
  {
    assert CELLS * ((range / CELLS) * c) == range * c;
    assert (range * c) / range == c;
  }

  lemma ScaleBounds(v: real, min: real, step: real, c: real, q: real)
    requires step > 0.0 && -0.5 <= c - q <= 0.5 && v - min == step * q
    ensures -(step * 0.5) <= min + step * c - v <= step * 0.5
  {
    var d := c - q;
    Scale(step, d);
    Distribute(step, c, q);
    Shift(v, min, step * c, step * q, step * d, step * 0.5);
  }

  lemma Distribute(step: real, c: real, q: real)
    ensures step * c - step * q == step * (c - q)
  {
  }

  lemma Shift(v: real, min: real, a: real, b: real, d: real, half: real)
    requires v - min == b && a - b == d && -half <= d <= half
    ensures -half <= min + a - v <= half
  {
  }

  lemma Scale(step: real, d: real)
    requires step > 0.0 && -0.5 <= d <= 0.5
    ensures -(step * 0.5) <= step * d <= step * 0.5
  {
  }

  lemma DecodeInterleave(x: bv32, y: bv32)
    ensures Decode(Interleave(x, y))
         == Coordinates(CellMiddle(Value32(x), MIN_LATITUDE, LATITUDE_RANGE),
                        CellMiddle(Value32(y), MIN_LONGITUDE, LONGITUDE_RANGE))
  {
    CompactInterleave(x, y);
  }

  /** The cells of p on both axes. */
  function Cells(p: Coordinates): (int, int) {
    (CellOf(p.latitude, MIN_LATITUDE, LATITUDE_RANGE), CellOf(p.longitude, MIN_LONGITUDE, LONGITUDE_RANGE))
  }

  /** Latitude first, from south to north; longitude from west to east: a point three quarters of
      the way north and one quarter of the way east, and the other way round. */
  lemma KnownCells()
    ensures Cells(Coordinates(42.52556439, -90.0)) == (0x300_0000, 0x100_0000)
    ensures Cells(Coordinates(-42.52556439, 90.0)) == (0x100_0000, 0x300_0000)
    ensures Cells(Coordinates(-85.05112878, -180.0)) == (0, 0)
  {
  }

  lemma DecodeCells(p: Coordinates)
    requires InRange(p)
    ensures 0 <= Cells(p).0 <= GRID && 0 <= Cells(p).1 <= GRID
    ensures Decode(Encode(p)) == Coordinates(CellMiddle(Cells(p).0, MIN_LATITUDE, LATITUDE_RANGE),
                                             CellMiddle(Cells(p).1, MIN_LONGITUDE, LONGITUDE_RANGE))
  {
    CellInGrid(p.latitude, MIN_LATITUDE, LATITUDE_RANGE);
    CellInGrid(p.longitude, MIN_LONGITUDE, LONGITUDE_RANGE);
    DecodeInterleave(Cells(p).0 as bv32, Cells(p).1 as bv32);
    WordOf(Cells(p).0);
    WordOf(Cells(p).1);
  }

  /** GEOADD then GEOPOS: the decoded point is within half a cell of the stored one on each
      axis and lies in the same cell, so encoding it again gives the same code. */
  lemma DecodeEncode(p: Coordinates)
    requires InRange(p)
    ensures var q := Decode(Encode(p));
            && -(LATITUDE_RANGE / (2.0 * CELLS)) <= q.latitude - p.latitude <= LATITUDE_RANGE / (2.0 * CELLS)
            && -(LONGITUDE_RANGE / (2.0 * CELLS)) <= q.longitude - p.longitude <= LONGITUDE_RANGE / (2.0 * CELLS)
            && Cells(q) == Cells(p)
            && (InRange(q) ==> Encode(q) == Encode(p))
  {
    DecodeCells(p);
    MiddleIsClose(p.latitude, MIN_LATITUDE, LATITUDE_RANGE);
    MiddleIsClose(p.longitude, MIN_LONGITUDE, LONGITUDE_RANGE);
    var q := Decode(Encode(p));
    if InRange(q) { SameCells(p, q); }
  }

  lemma SameCells(p: Coordinates, q: Coordinates)
    requires InRange(p) && InRange(q) && Cells(p) == Cells(q)
    ensures Encode(p) == Encode(q)
  {
  }

  lemma CellsCode(x: nat, y: nat)
    requires x <= GRID && y <= GRID
    ensures Value64(CodeOf(x, y)) == Morton(x, y)
  {
    WordOf(x);
    WordOf(y);
    InterleaveIsMorton(x as bv32, y as bv32);
  }

  lemma CodeExact(x: nat, y: nat)
    requires x <= GRID && y <= GRID
    ensures ExactInFloat64(Value64(CodeOf(x, y))) <==> y < GRID || x % 2 == 0
    ensures Value64(CodeOf(x, y)) < 0x20_0000_0000_0000 <==> y < GRID
  {
    CellsCode(x, y);
    ScoreFitsFloat64(x, y);
  }

  /** The stored score of an accepted point is exact in float64 if and only if the point is
      not on the +180 meridian or its latitude cell is even. */
  lemma StoredScoreExact(p: Coordinates)
    requires InRange(p)
    ensures ExactInFloat64(Value64(Encode(p))) <==> p.longitude < MAX_LONGITUDE || Cells(p).0 % 2 == 0
    ensures Value64(Encode(p)) < 0x20_0000_0000_0000 <==> p.longitude < MAX_LONGITUDE
  {
    CellInGrid(p.latitude, MIN_LATITUDE, LATITUDE_RANGE);
    CellInGrid(p.longitude, MIN_LONGITUDE, LONGITUDE_RANGE);
    CodeExact(Cells(p).0, Cells(p).1);
  }

  // ---- NaN ----------------------------------------------------------------------------------------

  /** What ParseFloat may give; an infinity is out of range. */
  datatype Coordinate = Number(value: real) | NotANumber

  /** GEOADD refuses a pair by comparisons, which are all false for NaN. */
  predicate Accepted(latitude: Coordinate, longitude: Coordinate) {
    && (longitude.Number? ==> MIN_LONGITUDE <= longitude.value <= MAX_LONGITUDE)
    && (latitude.Number? ==> MIN_LATITUDE <= latitude.value <= MAX_LATITUDE)
  }

  /** The cell of a coordinate; what uint32 makes of NaN is left to the implementation. */
  function CellWith(v: Coordinate, min: real, range: real, nanCell: nat): (n: nat)
    requires range > 0.0 && nanCell <= GRID && (v.Number? ==> min <= v.value <= min + range)
    ensures n <= GRID
    ensures v.Number? ==> n == CellOf(v.value, min, range) && (n == GRID <==> v.value == min + range)
  {
    if v.NotANumber? then nanCell
    else
      CellInGrid(v.value, min, range);
      CellOf(v.value, min, range)
  }

  /** The stored score of any accepted pair, wherever in the grid NaN lands, is exact in float64 if
      and only if the longitude cell is not the extra one at +180 degrees or the latitude cell is
      even. */
  lemma AcceptedScoreExact(latitude: Coordinate, longitude: Coordinate, nanCell: nat)
    requires Accepted(latitude, longitude) && nanCell <= GRID
    ensures var x := CellWith(latitude, MIN_LATITUDE, LATITUDE_RANGE, nanCell);
            var y := CellWith(longitude, MIN_LONGITUDE, LONGITUDE_RANGE, nanCell);
            && (ExactInFloat64(Value64(CodeOf(x, y))) <==> y < GRID || x % 2 == 0)
            && (longitude.Number? ==> (y < GRID <==> longitude.value < MAX_LONGITUDE))
  {
    CodeExact(CellWith(latitude, MIN_LATITUDE, LATITUDE_RANGE, nanCell),
              CellWith(longitude, MIN_LONGITUDE, LONGITUDE_RANGE, nanCell));
  }
}
